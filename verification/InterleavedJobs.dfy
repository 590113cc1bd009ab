/** The end-to-end limit when passes interleave: jobs and the entries that answer for them, at every moment. */
module InterleavedJobs {
  import opened RateLimiting
  import opened Cluster
  import opened Pass
  import opened System
  import opened Ledger
  import opened Jobs
  import opened JobLimit
  import opened Interleaving

  // ---------------------------------------------------------------------------------------------
  // Who answers for a job
  // ---------------------------------------------------------------------------------------------

  /** Were the pass aborted, its unclaimed jobs would still have the recorded entries answer for them. */
  predicate Recalled(nm: Namer, store: JobStore, key: Key, f: Flight) {
    forall n :: n in store.jobs && store.jobs[n].tie.Bound? && store.jobs[n].owner == key && n !in f.s.claimed ==>
      && Rooted(nm, f.p.image, f.p.nodeStatus, n, store.jobs[n])
      && Answers(f.p.nodeStatus[store.jobs[n].index], n, store.jobs[n])
  }

  predicate FloorJobs(nm: Namer, b: Floor) {
    && JobsOk(nm, b.world)
    && forall k :: k in b.flights ==> Recalled(nm, b.world.store, k, b.flights[k])
  }

  /** Bound jobs of the owner have all been bound before, and only aged. */
  predicate BoundBefore(s: JobStore, t: JobStore, owner: Key) {
    forall n :: n in t.jobs && t.jobs[n].tie.Bound? && t.jobs[n].owner == owner ==>
      n in s.jobs && s.jobs[n].tie.Bound? && Ages(s.jobs[n], t.jobs[n])
  }

  lemma StaysRecalled(nm: Namer, s: JobStore, t: JobStore, key: Key, f: Flight)
    requires Recalled(nm, s, key, f) && BoundBefore(s, t, key)
    ensures Recalled(nm, t, key, f)
  {
  }

  lemma HandleBindsOwn(nm: Namer, key: Key, p: PrePullImage, s: State, i: nat, w: Weather, owner: Key)
    requires i < |s.entries| && owner != key
    ensures BoundBefore(s.store, Handle(nm, key, p, s, i, w).store, owner)
  {
    DriftIsDrift(s.store, w.drift);
    hide DriftedAll;
  }

  lemma {:induction false} PassBindsOwn(nm: Namer, key: Key, p: PrePullImage, s0: State, weather: seq<Weather>, n: nat,
                                        owner: Key)
    requires n <= |s0.entries| && owner != key
    ensures BoundBefore(s0.store, After(nm, key, p, s0, weather, n).store, owner)
    decreases n
  {
    hide Handle;
    if n > 0 {
      PassBindsOwn(nm, key, p, s0, weather, n - 1, owner);
      HandleBindsOwn(nm, key, p, After(nm, key, p, s0, weather, n - 1), n - 1, At(weather, n - 1), owner);
    }
  }

  /** No visit to one object binds a job of another. */
  lemma VisitBindsOwn(nm: Namer, w: World, key: Key, env: Env, owner: Key)
    requires owner != key
    ensures BoundBefore(w.store, Reconcile(nm, w, key, env).world.store, owner)
  {
    hide After;
    hide Tally;
    hide ReleaseAll;
    hide PullingNodes;
    if key in w.ppis {
      var p := w.ppis[key];
      PassBindsOwn(nm, key, p, Begin(w.limiter, w.store, w.metrics, p.nodeStatus), env.weather, |p.nodeStatus|, owner);
    }
  }

  lemma TakeKeepsJobs(nm: Namer, b: Floor, key: Key)
    requires FloorJobs(nm, b) && CanTake(b, key)
    ensures FloorJobs(nm, Taken(b, key))
  {
    forall n | n in b.world.store.jobs ensures JobOk(nm, b.world.ppis, n, b.world.store.jobs[n]) {
    }
    assert Recalled(nm, b.world.store, key, Taken(b, key).flights[key]);
    hide JobsOk;
    hide Recalled;
  }

  lemma TurnKeepsStoreOk(nm: Namer, b: Floor, key: Key, weather: Weather)
    requires FloorOk(nm, b) && FloorJobs(nm, b) && CanTurn(b, key)
    ensures JobsOk(nm, Turned(nm, b, key, weather).world)
  {
    var f, ppis := b.flights[key], b.world.ppis;
    assert RecordOk(nm, key, b.flights, ppis[key]);
    assert With(ppis, key, f.s.entries) == ppis;
    hide FloorOk;
    hide FlightOk;
    HandleKeepsStoreOk(nm, ppis, key, f.p, Now(b.world, f), f.next, weather);
    hide StoreOk;
    hide Handle;
  }

  lemma TurnKeepsRecalled(nm: Namer, b: Floor, key: Key, weather: Weather, k: Key)
    requires CanTurn(b, key) && k in b.flights && Recalled(nm, b.world.store, k, b.flights[k])
    ensures Recalled(nm, Turned(nm, b, key, weather).world.store, k, Turned(nm, b, key, weather).flights[k])
  {
    var f := b.flights[key];
    var s := Now(b.world, f);
    HandleAges(nm, key, f.p, s, f.next, weather);
    if k != key {
      HandleBindsOwn(nm, key, f.p, s, f.next, weather, k);
      StaysRecalled(nm, b.world.store, AfterTurn(nm, b, key, weather).store, k, b.flights[k]);
    }
    hide Handle;
  }

  lemma TurnKeepsJobs(nm: Namer, b: Floor, key: Key, weather: Weather)
    requires FloorOk(nm, b) && FloorJobs(nm, b) && CanTurn(b, key)
    ensures FloorJobs(nm, Turned(nm, b, key, weather))
  {
    TurnKeepsStoreOk(nm, b, key, weather);
    hide FloorOk;
    hide JobsOk;
    hide Handle;
    hide Recalled;
    var c := Turned(nm, b, key, weather);
    forall k | k in c.flights ensures Recalled(nm, c.world.store, k, c.flights[k]) {
      TurnKeepsRecalled(nm, b, key, weather, k);
    }
  }

  /** Back to the record: the entries are the recorded ones again, and what the pass had claimed is loose. */
  lemma AbortKeepsStoreOk(nm: Namer, ppis: map<Key, PrePullImage>, key: Key, f: Flight, store: JobStore)
    requires key in ppis && ppis[key].image == f.p.image && ppis[key].nodeStatus == f.s.entries
    requires StoreOk(nm, ppis, store) && Recalled(nm, store, key, f) && SameNodes(f.p.nodeStatus, f.s.entries)
    ensures StoreOk(nm, With(ppis, key, f.p.nodeStatus), store.Loosen(f.s.claimed, key))
  {
    forall n | n in store.jobs
      ensures JobOk(nm, With(ppis, key, f.p.nodeStatus), n, store.Loosen(f.s.claimed, key).jobs[n])
    {
      assert JobOk(nm, ppis, n, store.jobs[n]);
    }
  }

  lemma FlightKeepsNodes(nm: Namer, key: Key, f: Flight, p: PrePullImage)
    requires FlightOk(nm, key, f, p)
    ensures SameNodes(f.p.nodeStatus, f.s.entries)
  {
    forall i | 0 <= i < |f.p.nodeStatus| ensures f.p.nodeStatus[i].node == f.s.entries[i].node {
      assert i < f.next ==> Move(f.p.nodeStatus[i], f.s.entries[i], f.p.maxAttempts);
    }
  }

  lemma LoosenBindsNone(s: JobStore, claimed: set<string>, key: Key, owner: Key)
    ensures BoundBefore(s, s.Loosen(claimed, key), owner)
  {
  }

  lemma AbortKeepsJobs(nm: Namer, b: Floor, key: Key)
    requires FloorOk(nm, b) && FloorJobs(nm, b) && CanAbort(b, key)
    ensures FloorJobs(nm, Aborted(b, key))
  {
    var f, c := b.flights[key], Aborted(b, key);
    assert RecordOk(nm, key, b.flights, b.world.ppis[key]);
    FlightKeepsNodes(nm, key, f, b.world.ppis[key]);
    hide FloorOk;
    hide StoreOk;
    hide JobStore.Loosen;
    AbortKeepsStoreOk(nm, b.world.ppis, key, f, b.world.store);
    hide FlightOk;
    hide Recalled;
    forall k | k in c.flights ensures Recalled(nm, c.world.store, k, c.flights[k]) {
      LoosenBindsNone(b.world.store, f.s.claimed, key, k);
      StaysRecalled(nm, b.world.store, c.world.store, k, b.flights[k]);
    }
  }

  lemma FinishKeepsEntries(nm: Namer, b: Floor, key: Key, now: int)
    requires FloorOk(nm, b) && CanFinish(b, key)
    ensures var p, q := b.world.ppis[key], Finished(b, key, now).world.ppis[key];
            q.nodeStatus == p.nodeStatus && q.image == p.image
  {
    assert RecordOk(nm, key, b.flights, b.world.ppis[key]);
  }

  lemma FinishKeepsJobs(nm: Namer, b: Floor, key: Key, now: int)
    requires FloorOk(nm, b) && FloorJobs(nm, b) && CanFinish(b, key)
    ensures FloorJobs(nm, Finished(b, key, now))
  {
    FinishKeepsEntries(nm, b, key, now);
    hide FloorOk;
    hide JobsOk;
    hide Recalled;
    hide Concluded;
    SameEntriesJobs(nm, b.world, Finished(b, key, now).world);
  }

  /** No other step binds a job of an object with a pass under way. */
  lemma OtherBindsNone(nm: Namer, b: Floor, step: Step, key: Key)
    requires Allowed(b, step) && key in b.flights
    ensures BoundBefore(b.world.store, Apply(nm, b.world, step).store, key)
  {
    hide Reconcile;
    match step {
      case Visit(q, env) => VisitBindsOwn(nm, b.world, q, env, key);
      case Outside(d) => DriftedIsDrift(b.world.store, d);
      case _ =>
    }
  }

  lemma OtherKeepsJobs(nm: Namer, b: Floor, step: Step)
    requires FloorOk(nm, b) && FloorJobs(nm, b) && Allowed(b, step)
    ensures FloorJobs(nm, Stepped(nm, b, step))
  {
    FloorOkSteps(nm, b, step);
    StepJobs(nm, b.world, step);
    hide FloorOk;
    hide JobsOk;
    hide Apply;
    forall k | k in b.flights ensures Recalled(nm, Apply(nm, b.world, step).store, k, b.flights[k]) {
      OtherBindsNone(nm, b, step, k);
      StaysRecalled(nm, b.world.store, Apply(nm, b.world, step).store, k, b.flights[k]);
    }
  }

  lemma PerformKeepsJobs(nm: Namer, b: Floor, act: Act)
    requires FloorOk(nm, b) && FloorJobs(nm, b)
    ensures FloorJobs(nm, Perform(nm, b, act))
  {
    hide FloorOk;
    hide FloorJobs;
    match act
    case Take(k) =>
      if CanTake(b, k) {
        TakeKeepsJobs(nm, b, k);
      }
    case Turn(k, weather) =>
      if CanTurn(b, k) {
        TurnKeepsJobs(nm, b, k, weather);
      }
    case Finish(k, now) =>
      if CanFinish(b, k) {
        FinishKeepsJobs(nm, b, k, now);
      }
    case Abort(k) =>
      if CanAbort(b, k) {
        AbortKeepsJobs(nm, b, k);
      }
    case Other(step) =>
      if Allowed(b, step) {
        OtherKeepsJobs(nm, b, step);
      }
  }

  lemma {:induction false} RunsKeepJobsInterleaved(nm: Namer, maxPulls: int, maxPerNode: int, acts: seq<Act>)
    ensures FloorJobs(nm, PerformAll(nm, Open(maxPulls, maxPerNode), acts))
  {
    hide Perform;
    if acts != [] {
      var before := acts[..|acts| - 1];
      RunsKeepJobsInterleaved(nm, maxPulls, maxPerNode, before);
      RunsInLedgerInterleaved(nm, maxPulls, maxPerNode, before, Whole);
      PerformKeepsJobs(nm, PerformAll(nm, Open(maxPulls, maxPerNode), before), acts[|acts| - 1]);
    }
  }

  // ---------------------------------------------------------------------------------------------
  // Who pays for a job
  // ---------------------------------------------------------------------------------------------

  /** Pulling entries and loose jobs are paid for, and so would be the jobs a pass has claimed, were it aborted. */
  ghost predicate FloorPaid(b: Floor, slot: Slot) {
    && Paid(b.world, slot)
    && forall k :: k in b.flights ==> ClaimsPaid(b.world.store, k, b.flights[k], slot)
  }

  predicate ClaimsPaid(store: JobStore, key: Key, f: Flight, slot: Slot) {
    |ClaimedOn(store, f.s.claimed, key, slot)| <= Share(f.s.starts, slot)
  }

  lemma StaysClaimsPaid(s: JobStore, t: JobStore, key: Key, f: Flight, slot: Slot)
    requires ClaimsPaid(s, key, f, slot) && BoundBefore(s, t, key)
    ensures ClaimsPaid(t, key, f, slot)
  {
    SubsetSize(ClaimedOn(t, f.s.claimed, key, slot), ClaimedOn(s, f.s.claimed, key, slot));
  }

  /** What a turn does to one slot, in numbers. */
  lemma TurnPaysInNumbers(w: World, v: World, s: State, t: State, slot: Slot)
    requires Paid(w, slot) && Balanced(s, t, slot) && s.limiter == w.limiter && t.limiter == v.limiter
    requires t.limiter.Fresh() == s.limiter.Fresh() && v.past.restarts == w.past.restarts
    requires Pulls(v, slot) == Pulls(w, slot) - Tally(s.entries, Using(slot)) + Tally(t.entries, Using(slot))
    requires |LooseOn(v.store, slot)| - |LooseOn(w.store, slot)| <= LostOn(v.past, slot) - LostOn(w.past, slot)
    ensures Paid(v, slot)
  {
    hide Pulls;
    hide LooseOn;
    hide LostOn;
    assert t.limiter.Limit(slot) == s.limiter.Limit(slot);
  }

  lemma TurnKeepsPaid(nm: Namer, b: Floor, key: Key, weather: Weather, slot: Slot)
    requires FloorOk(nm, b) && FloorJobs(nm, b) && CanTurn(b, key) && Paid(b.world, slot)
    ensures Paid(Turned(nm, b, key, weather).world, slot)
  {
    var f, c, p := b.flights[key], Turned(nm, b, key, weather), b.world.ppis[key];
    var s, t := Now(b.world, f), AfterTurn(nm, b, key, weather);
    HandleBalances(nm, key, f.p, s, f.next, weather, slot);
    TurnKeepsFlightOk(nm, b, key, weather);
    HandleLoosens(nm, key, f.p, s, f.next, weather, slot);
    EverywherePut(b.world.ppis, key, p.(nodeStatus := t.entries), Using(slot));
    assert RecordOk(nm, key, b.flights, p);
    hide Handle;
    hide FloorOk;
    hide FloorJobs;
    hide FlightOk;
    hide Everywhere;
    hide LooseOn;
    assert Share(c.world.past.phantoms, slot) == Share(b.world.past.phantoms, slot) + Share(t.phantoms, slot);
    TurnPaysInNumbers(b.world, c.world, s, t, slot);
  }

  lemma TurnKeepsOwnClaims(nm: Namer, b: Floor, key: Key, weather: Weather, slot: Slot)
    requires FloorOk(nm, b) && FloorJobs(nm, b) && CanTurn(b, key) && ClaimsPaid(b.world.store, key, b.flights[key], slot)
    ensures ClaimsPaid(Turned(nm, b, key, weather).world.store, key, Turned(nm, b, key, weather).flights[key], slot)
  {
    var f, ppis := b.flights[key], b.world.ppis;
    assert RecordOk(nm, key, b.flights, ppis[key]);
    assert With(ppis, key, f.s.entries) == ppis;
    hide FloorOk;
    hide RecordOk;
    hide FlightOk;
    hide StoreOk;
    hide Recalled;
    HandleClaims(nm, ppis, key, f.p, Now(b.world, f), f.next, weather, slot);
    hide Handle;
    hide ClaimedOn;
  }

  lemma TurnKeepsClaims(nm: Namer, b: Floor, key: Key, weather: Weather, k: Key, slot: Slot)
    requires FloorOk(nm, b) && FloorJobs(nm, b) && CanTurn(b, key)
    requires k in b.flights && ClaimsPaid(b.world.store, k, b.flights[k], slot)
    ensures ClaimsPaid(Turned(nm, b, key, weather).world.store, k, Turned(nm, b, key, weather).flights[k], slot)
  {
    hide FloorOk;
    hide FloorJobs;
    hide ClaimsPaid;
    hide Handle;
    if k == key {
      TurnKeepsOwnClaims(nm, b, key, weather, slot);
    } else {
      HandleBindsOwn(nm, key, b.flights[key].p, Now(b.world, b.flights[key]), b.flights[key].next, weather, k);
      StaysClaimsPaid(b.world.store, AfterTurn(nm, b, key, weather).store, k, b.flights[k], slot);
    }
  }

  lemma AbortKeepsPaid(nm: Namer, b: Floor, key: Key, slot: Slot)
    requires FloorOk(nm, b) && FloorInLedger(b, slot) && FloorPaid(b, slot) && CanAbort(b, key)
    ensures Paid(Aborted(b, key).world, slot)
  {
    var f, p := b.flights[key], b.world.ppis[key];
    EverywherePut(b.world.ppis, key, p.(nodeStatus := f.p.nodeStatus), Using(slot));
    assert RecordOk(nm, key, b.flights, p) && FlightBalanced(f, slot) && ClaimsPaid(b.world.store, key, f, slot);
    LosingLoosens(b.world.store, f.s.claimed, key, slot);
    LostAdds(b.world.past, f.p, f.s, slot);
    hide FloorOk;
    hide FlightOk;
    hide FloorInLedger;
    hide Everywhere;
    hide LooseOn;
    hide ClaimedOn;
    hide LostOn;
    hide Lost;
    hide Tally;
  }

  lemma FinishKeepsPaid(nm: Namer, b: Floor, key: Key, now: int, slot: Slot)
    requires FloorOk(nm, b) && Paid(b.world, slot) && CanFinish(b, key)
    ensures Paid(Finished(b, key, now).world, slot)
  {
    var f := b.flights[key];
    FinishKeepsEntries(nm, b, key, now);
    UnchangedEntries(b.world.ppis, key, Finished(b, key, now).world.ppis[key], Using(slot));
    LostAdds(b.world.past, f.p, f.s, slot);
    hide FloorOk;
    hide Everywhere;
    hide LooseOn;
    hide LostOn;
    hide Noted;
    hide Concluded;
  }

  lemma OthersStayPaid(b: Floor, c: Floor, slot: Slot)
    requires FloorPaid(b, slot) && Paid(c.world, slot)
    requires forall k :: k in c.flights ==>
      k in b.flights && c.flights[k] == b.flights[k] && BoundBefore(b.world.store, c.world.store, k)
    ensures FloorPaid(c, slot)
  {
    hide Paid;
    hide BoundBefore;
    forall k | k in c.flights ensures ClaimsPaid(c.world.store, k, c.flights[k], slot) {
      StaysClaimsPaid(b.world.store, c.world.store, k, b.flights[k], slot);
    }
  }

  lemma TakeKeepsPaid(b: Floor, key: Key, slot: Slot)
    requires FloorPaid(b, slot) && CanTake(b, key)
    ensures FloorPaid(Taken(b, key), slot)
  {
    var f := Taken(b, key).flights[key];
    assert ClaimedOn(b.world.store, f.s.claimed, key, slot) == {};
    assert ClaimsPaid(b.world.store, key, f, slot);
    hide Paid;
    hide ClaimsPaid;
  }

  lemma TurnKeepsFloorPaid(nm: Namer, b: Floor, key: Key, weather: Weather, slot: Slot)
    requires FloorOk(nm, b) && FloorJobs(nm, b) && FloorPaid(b, slot) && CanTurn(b, key)
    ensures FloorPaid(Turned(nm, b, key, weather), slot)
  {
    TurnKeepsPaid(nm, b, key, weather, slot);
    hide FloorOk;
    hide FloorJobs;
    hide Paid;
    hide AfterTurn;
    var c := Turned(nm, b, key, weather);
    forall k | k in c.flights ensures ClaimsPaid(c.world.store, k, c.flights[k], slot) {
      TurnKeepsClaims(nm, b, key, weather, k, slot);
    }
  }

  lemma PerformKeepsPaid(nm: Namer, b: Floor, act: Act, slot: Slot)
    requires FloorOk(nm, b) && FloorJobs(nm, b) && FloorInLedger(b, slot) && FloorPaid(b, slot)
    ensures FloorPaid(Perform(nm, b, act), slot)
  {
    hide FloorOk;
    hide FloorInLedger;
    hide Paid;
    hide Recalled;
    hide JobsOk;
    match act
    case Take(k) =>
      if CanTake(b, k) {
        TakeKeepsPaid(b, k, slot);
      }
    case Turn(k, weather) =>
      if CanTurn(b, k) {
        hide Turned;
        TurnKeepsFloorPaid(nm, b, k, weather, slot);
      }
    case Finish(k, now) =>
      if CanFinish(b, k) {
        FinishKeepsPaid(nm, b, k, now, slot);
        hide Concluded;
        OthersStayPaid(b, Finished(b, k, now), slot);
      }
    case Abort(k) =>
      if CanAbort(b, k) {
        AbortKeepsPaid(nm, b, k, slot);
        forall q ensures BoundBefore(b.world.store, Aborted(b, k).world.store, q) {
          LoosenBindsNone(b.world.store, b.flights[k].s.claimed, k, q);
        }
        OthersStayPaid(b, Aborted(b, k), slot);
      }
    case Other(step) =>
      if Allowed(b, step) {
        FloorOkSteps(nm, b, step);
        StepPaid(nm, b.world, step, slot);
        hide Apply;
        forall q | q in b.flights ensures BoundBefore(b.world.store, Stepped(nm, b, step).world.store, q) {
          OtherBindsNone(nm, b, step, q);
        }
        OthersStayPaid(b, Stepped(nm, b, step), slot);
      }
  }

  lemma PerformLeavesOrphans(nm: Namer, b: Floor, act: Act)
    requires OrphansLeft(b.world)
    ensures OrphansLeft(Perform(nm, b, act).world)
  {
    match act
    case Turn(k, weather) =>
      if CanTurn(b, k) {
        HandleOrphansNone(nm, k, b.flights[k].p, Now(b.world, b.flights[k]), b.flights[k].next, weather);
        hide Handle;
      }
    case Other(step) =>
      StepLeavesOrphans(nm, b.world, step);
      hide Apply;
    case _ =>
  }

  lemma {:induction false} RunsPaidInterleaved(nm: Namer, maxPulls: int, maxPerNode: int, acts: seq<Act>, slot: Slot)
    ensures var b := PerformAll(nm, Open(maxPulls, maxPerNode), acts); FloorPaid(b, slot) && OrphansLeft(b.world)
  {
    hide Perform;
    if acts == [] {
      assert LooseOn(Start(maxPulls, maxPerNode).store, slot) == {};
    } else {
      var before := acts[..|acts| - 1];
      RunsPaidInterleaved(nm, maxPulls, maxPerNode, before, slot);
      RunsKeepJobsInterleaved(nm, maxPulls, maxPerNode, before);
      RunsInLedgerInterleaved(nm, maxPulls, maxPerNode, before, slot);
      hide FloorPaid;
      hide FloorOk;
      hide FloorJobs;
      hide FloorInLedger;
      hide OrphansLeft;
      PerformKeepsPaid(nm, PerformAll(nm, Open(maxPulls, maxPerNode), before), acts[|acts| - 1], slot);
      PerformLeavesOrphans(nm, PerformAll(nm, Open(maxPulls, maxPerNode), before), acts[|acts| - 1]);
    }
  }

  /** The end-to-end limit at every moment of every interleaving, in the middle of passes included: k + 1 limits'
      worth after k restarts, plus what was lost on the slot and what failed cleanups left running on it. */
  lemma InterleavedJobsWithinLimit(nm: Namer, maxPulls: int, maxPerNode: int, acts: seq<Act>, slot: Slot)
    ensures var w := PerformAll(nm, Open(maxPulls, maxPerNode), acts).world;
            var limit := NewLimiter(maxPulls, maxPerNode).Limit(slot);
            |UnfinishedOn(w, slot)| <= (w.past.restarts + 1) * limit + LostOn(w.past, slot) + |LeftOn(w.past, slot)|
  {
    hide PerformAll;
    RunsKeepJobsInterleaved(nm, maxPulls, maxPerNode, acts);
    RunsInLedgerInterleaved(nm, maxPulls, maxPerNode, acts, slot);
    RunsPaidInterleaved(nm, maxPulls, maxPerNode, acts, slot);
    var w := PerformAll(nm, Open(maxPulls, maxPerNode), acts).world;
    LimitFromParts(nm, w, slot);
    assert w.limiter.Limit(slot) == NewLimiter(maxPulls, maxPerNode).Limit(slot);
  }

  // ---------------------------------------------------------------------------------------------
  // In terms of what may fail
  // ---------------------------------------------------------------------------------------------

  /** Every pass is recorded, and otherwise nothing goes wrong but reads, refused creations and deletions of failed
      jobs. The process may be replaced between passes. */
  predicate TidyAct(act: Act) {
    match act
    case Turn(_, weather) => TidyWeather(weather)
    case Abort(_) => false
    case Other(step) => Tidy(step)
    case _ => true
  }

  /** Nothing is charged. */
  predicate Clean(b: Floor) {
    && b.world.past.lostStops == b.world.past.crashed == b.world.past.phantoms == multiset{} && b.world.past.left == {}
    && forall k :: k in b.flights ==> b.flights[k].s.phantoms == multiset{}
  }

  lemma TidyActIsClean(nm: Namer, b: Floor, act: Act)
    requires TidyAct(act) && Clean(b)
    ensures Clean(Perform(nm, b, act))
  {
    match act
    case Other(step) =>
      TidyIsContained(step);
      assert [step][..0] == [];
      ContainedRuns(nm, b.world, [step]);
      OneStep(nm, b.world, step);
      hide Apply;
      hide Contained;
    case _ =>
  }

  lemma OneStep(nm: Namer, w: World, step: Step)
    ensures Run(nm, w, [step]) == Apply(nm, w, step)
  {
    assert [step][..0] == [];
    assert Run(nm, w, []) == w;
  }

  lemma {:induction false} TidyActsAreClean(nm: Namer, maxPulls: int, maxPerNode: int, acts: seq<Act>)
    requires forall i :: 0 <= i < |acts| ==> TidyAct(acts[i])
    ensures Clean(PerformAll(nm, Open(maxPulls, maxPerNode), acts))
  {
    hide Perform;
    if acts != [] {
      TidyActsAreClean(nm, maxPulls, maxPerNode, acts[..|acts| - 1]);
      TidyActIsClean(nm, PerformAll(nm, Open(maxPulls, maxPerNode), acts[..|acts| - 1]), acts[|acts| - 1]);
    }
  }

  /** On such runs only restarts add to the limit, one limit's worth each. */
  lemma TidyActsWithinLimit(nm: Namer, maxPulls: int, maxPerNode: int, acts: seq<Act>, slot: Slot)
    requires forall i :: 0 <= i < |acts| ==> TidyAct(acts[i])
    ensures var w := PerformAll(nm, Open(maxPulls, maxPerNode), acts).world;
            |UnfinishedOn(w, slot)| <= (w.past.restarts + 1) * NewLimiter(maxPulls, maxPerNode).Limit(slot)
  {
    hide PerformAll;
    hide TidyAct;
    TidyActsAreClean(nm, maxPulls, maxPerNode, acts);
    InterleavedJobsWithinLimit(nm, maxPulls, maxPerNode, acts, slot);
    var w := PerformAll(nm, Open(maxPulls, maxPerNode), acts).world;
    assert LeftOn(w.past, slot) == {};
    assert LostOn(w.past, slot) == 0;
  }
}
