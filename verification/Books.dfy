/** The metrics against the entries: the active gauge, and where every started pull went. */
module Books {
  import opened RateLimiting
  import opened Cluster
  import opened Pass
  import opened System
  import opened Lifecycle
  import opened Ledger

  /** Over a pass the gauge follows starts and stops, every stop is a success, a final failure or a retry,
      and the two counters follow the entries that became Completed and Failed. */
  predicate Booked(s: State, t: State) {
    && t.metrics.active - s.metrics.active == (|t.starts| - |s.starts|) - (|t.stops| - |s.stops|)
    && |t.stops| - |s.stops|
       == (t.metrics.succeeded - s.metrics.succeeded) + (t.metrics.failed - s.metrics.failed)
        + (Tally(t.entries, Retries) - Tally(s.entries, Retries))
    && t.metrics.succeeded - s.metrics.succeeded == Tally(t.entries, InStatus(Completed)) - Tally(s.entries, InStatus(Completed))
    && t.metrics.failed - s.metrics.failed == Tally(t.entries, InStatus(Failed)) - Tally(s.entries, InStatus(Failed))
    && s.metrics.succeeded <= t.metrics.succeeded && s.metrics.failed <= t.metrics.failed
    && Tally(s.entries, Retries) <= Tally(t.entries, Retries)
  }

  lemma HandleBooks(nm: Namer, key: Key, p: PrePullImage, s: State, i: nat, w: Weather)
    requires i < |s.entries|
    ensures Booked(s, Handle(nm, key, p, s, i, w))
  {
    var f := Handle(nm, key, p, s, i, w).entries[i];
    TallyUpdate(s.entries, i, f, Retries);
    TallyUpdate(s.entries, i, f, InStatus(Completed));
    TallyUpdate(s.entries, i, f, InStatus(Failed));
  }

  lemma BookedOnwards(r: State, s: State, t: State)
    requires Booked(r, s) && Booked(s, t)
    ensures Booked(r, t)
  {
  }

  lemma {:induction false} PassBooks(nm: Namer, key: Key, p: PrePullImage, s0: State, weather: seq<Weather>, n: nat)
    requires n <= |s0.entries|
    ensures Booked(s0, After(nm, key, p, s0, weather, n))
    decreases n
  {
    hide Handle;
    if n > 0 {
      PassBooks(nm, key, p, s0, weather, n - 1);
      var s := After(nm, key, p, s0, weather, n - 1);
      HandleBooks(nm, key, p, s, n - 1, At(weather, n - 1));
      BookedOnwards(s0, s, After(nm, key, p, s0, weather, n));
    }
  }

  lemma {:induction false} PullingEitherWay(es: seq<NodeStatus>)
    ensures Tally(es, InStatus(Pulling)) == Tally(es, Using(Whole)) == |PullingNodes(es)|
  {
    if es != [] {
      PullingEitherWay(es[..|es| - 1]);
    }
  }

  /** The gauge counts the Pulling entries that this process knows of, give or take lost records. */
  ghost predicate GaugeOk(w: World) {
    w.metrics.active == Pulls(w, Whole) - w.past.baseline + |w.past.lostStarts| - |w.past.lostStops|
  }

  /** Every pull ever started is accounted for once, whatever was lost and however often the operator was
      restarted: it is Pulling (give or take lost records), succeeded, failed, was retried, or was dropped by a
      finalizer; counters of earlier processes, deleted PrePullImages and lost retries included. */
  ghost predicate StartsOk(w: World) {
    w.past.started == Pulls(w, Whole) + w.past.unrecorded - |w.past.lostStops| - |w.past.crashed|
                    + w.past.succeeded + w.metrics.succeeded + w.past.failed + w.metrics.failed
                    + Everywhere(w.ppis, Retries) + w.past.retiredRetries + w.past.lostRetries + w.past.dropped
  }

  /** A retry whose record was lost is a stop whose record was lost. */
  predicate RetriesOk(past: History) {
    0 <= past.lostRetries <= |past.lostStops| + |past.crashed|
  }

  ghost predicate BooksOk(w: World) {
    GaugeOk(w) && StartsOk(w) && RetriesOk(w.past)
  }

  lemma InProgressBooks(nm: Namer, w: World, key: Key, env: Env)
    requires w.limiter.Valid() && key in w.ppis && BooksOk(w)
    ensures BooksOk(HandleInProgress(nm, w, key, env).world)
  {
    var p, s := w.ppis[key], PassOver(nm, w, key, env);
    var s0 := Begin(w.limiter, w.store, w.metrics, p.nodeStatus);
    PassBooks(nm, key, p, s0, env.weather, |p.nodeStatus|);
    PassBalances(nm, key, p, s0, env.weather, |p.nodeStatus|, Whole);
    EverywherePut(w.ppis, key, Concluded(p, s, env.now), Using(Whole));
    EverywherePut(w.ppis, key, Concluded(p, s, env.now), Retries);
  }

  lemma DeletionBooks(w: World, key: Key, env: Env)
    requires key in w.ppis && BooksOk(w)
    ensures BooksOk(HandleDeletion(w, key, env).world)
  {
    PullingEitherWay(w.ppis[key].nodeStatus);
    EverywhereDrop(w.ppis, key, Using(Whole));
    EverywhereDrop(w.ppis, key, Retries);
  }

  /** Rewriting one record without touching what its entries weigh. */
  lemma SameWeightBooks(w: World, v: World)
    requires BooksOk(w)
    requires v.metrics == w.metrics && v.past == w.past
    requires forall m :: m == Using(Whole) || m == Retries ==> Everywhere(v.ppis, m) == Everywhere(w.ppis, m)
    ensures BooksOk(v)
  {
  }

  lemma ReconcileBooks(nm: Namer, w: World, key: Key, env: Env)
    requires AllOk(nm, w) && BooksOk(w)
    ensures BooksOk(Reconcile(nm, w, key, env).world)
  {
    if key in w.ppis && !env.getFails {
      var p := w.ppis[key];
      assert PpiOk(nm, key, p);
      if p.deleting {
        DeletionBooks(w, key, env);
      } else if p.finalizer && p.phase.InProgress? {
        InProgressBooks(nm, w, key, env);
      } else {
        QuietWeights(nm, w, key, env, Using(Whole));
        QuietWeights(nm, w, key, env, Retries);
        SameWeightBooks(w, Reconcile(nm, w, key, env).world);
      }
    }
  }

  /** The books when the process ends, in state v, with some of its lost stops put down to the crash. */
  lemma EndBooks(w: World, v: World)
    requires BooksOk(v) && w.past.lostStops <= v.past.lostStops && v.past.crashed == w.past.crashed
    ensures BooksOk(Restarted(v.(past := Died(w.past, v.past))))
  {
    hide Everywhere;
    assert |v.past.lostStops - w.past.lostStops| == |v.past.lostStops| - |w.past.lostStops|;
  }

  /** What a process has done when it dies is on the books as lost. */
  lemma CrashBooks(nm: Namer, w: World, key: Key, env: Env)
    requires AllOk(nm, w) && BooksOk(w)
    ensures BooksOk(Apply(nm, w, Crash(key, env)))
  {
    var v := Reconcile(nm, w, key, env.(writeFails := true)).world;
    ReconcileBooks(nm, w, key, env.(writeFails := true));
    FailedWriteKeeps(nm, w, key, env.(writeFails := true));
    hide Reconcile;
    hide BooksOk;
    EndBooks(w, v);
  }

  lemma StepBooks(nm: Namer, w: World, step: Step)
    requires AllOk(nm, w) && BooksOk(w)
    ensures BooksOk(Apply(nm, w, step))
  {
    match step
    case Submit(k, image, names, max) =>
      EverywherePut(w.ppis, k, Submitted(image, names, max), Using(Whole));
      EverywherePut(w.ppis, k, Submitted(image, names, max), Retries);
    case RequestDelete(k) =>
      DeleteTakesNothing(w.ppis, k, Using(Whole));
      DeleteTakesNothing(w.ppis, k, Retries);
    case Visit(k, env) => ReconcileBooks(nm, w, k, env);
    case Crash(k, env) => CrashBooks(nm, w, k, env);
    case _ =>
  }

  lemma {:induction false} RunsKeepBooks(nm: Namer, maxPulls: int, maxPerNode: int, steps: seq<Step>)
    ensures BooksOk(Run(nm, Start(maxPulls, maxPerNode), steps))
  {
    if steps != [] {
      var before := steps[..|steps| - 1];
      RunsKeepBooks(nm, maxPulls, maxPerNode, before);
      RunsKeepAllOk(nm, maxPulls, maxPerNode, before);
      StepBooks(nm, Run(nm, Start(maxPulls, maxPerNode), before), steps[|steps| - 1]);
    }
  }

  /** A reconcile is not a restart, and keeps the two counts of lost starts in step. */
  lemma ReconcileFirst(nm: Namer, w: World, key: Key, env: Env)
    ensures var v := Reconcile(nm, w, key, env).world.past;
            && v.restarts == w.past.restarts && v.baseline == w.past.baseline && v.crashed == w.past.crashed
            && v.succeeded == w.past.succeeded && v.failed == w.past.failed
            && v.unrecorded - |v.lostStarts| == w.past.unrecorded - |w.past.lostStarts|
  {
    hide FullPass;
    hide Tally;
    hide ReleaseAll;
    hide PullingNodes;
    hide StillRunning;
  }

  lemma {:induction false} FirstProcess(nm: Namer, maxPulls: int, maxPerNode: int, steps: seq<Step>)
    ensures var past := Run(nm, Start(maxPulls, maxPerNode), steps).past;
            past.restarts == 0 ==>
              && past.baseline == past.succeeded == past.failed == 0 && past.unrecorded == |past.lostStarts|
              && past.crashed == multiset{}
  {
    hide Reconcile;
    hide Everywhere;
    if steps != [] {
      var before := steps[..|steps| - 1];
      FirstProcess(nm, maxPulls, maxPerNode, before);
      match steps[|steps| - 1]
      case Visit(k, env) => ReconcileFirst(nm, Run(nm, Start(maxPulls, maxPerNode), before), k, env);
      case _ =>
    }
  }

  /** With no lost write and no restart the active gauge, the limiter and the Pulling entries agree, and every
      pull started is active, succeeded, failed, was retried, or was dropped with its PrePullImage. */
  lemma GaugeIsExact(nm: Namer, maxPulls: int, maxPerNode: int, steps: seq<Step>)
    requires var w := Run(nm, Start(maxPulls, maxPerNode), steps); Recorded(w) && w.past.restarts == 0
    ensures var w := Run(nm, Start(maxPulls, maxPerNode), steps);
            && w.metrics.active == Pulls(w, Whole) == w.limiter.current
            && w.past.started == w.metrics.active + w.metrics.succeeded + w.metrics.failed
                               + Everywhere(w.ppis, Retries) + w.past.retiredRetries + w.past.dropped
  {
    hide Run;
    RunsKeepBooks(nm, maxPulls, maxPerNode, steps);
    ExactWithoutLosses(nm, maxPulls, maxPerNode, steps, Whole);
    FirstProcess(nm, maxPulls, maxPerNode, steps);
  }
}
