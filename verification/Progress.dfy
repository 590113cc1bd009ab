/** Nothing waits for ever: termination within a budget, wake-ups, and when a free slot is found. */
module Progress {
  import opened RateLimiting
  import opened Cluster
  import opened Pass
  import opened System
  import opened Lifecycle
  import opened Ledger

  // ---------------------------------------------------------------------------------------------
  // Termination
  // ---------------------------------------------------------------------------------------------

  /** The number of status changes a PrePullImage has left. */
  function Left(p: PrePullImage): int {
    Tally(p.nodeStatus, Rank(Attempts(p)))
  }

  lemma LeftIsNonNegative(nm: Namer, key: Key, p: PrePullImage)
    requires PpiOk(nm, key, p)
    ensures 0 <= Left(p)
    ensures forall i :: 0 <= i < |p.nodeStatus| ==> Weight(Rank(Attempts(p)), p.nodeStatus[i]) <= Left(p)
  {
    forall i | 0 <= i < |p.nodeStatus| ensures 0 <= Weight(Rank(Attempts(p)), p.nodeStatus[i]) {
      assert EntryOk(nm, key, Attempts(p), p.nodeStatus[i]);
    }
    TallyBounds(p.nodeStatus, Rank(Attempts(p)));
  }

  lemma InProgressHasLeft(nm: Namer, key: Key, p: PrePullImage)
    requires PpiOk(nm, key, p) && p.phase.InProgress?
    ensures Left(p) > 0
  {
    LeftIsNonNegative(nm, key, p);
    var i :| 0 <= i < |p.nodeStatus| && !Terminal(p.nodeStatus[i].status);
    assert EntryOk(nm, key, Attempts(p), p.nodeStatus[i]);
    assert Weight(Rank(Attempts(p)), p.nodeStatus[i]) > 0;
  }

  /** A PrePullImage with n entries and M retries sees at most n(2M + 2) recorded passes that change a
      status, in any run; once it has seen them all it is in a terminal phase. */
  lemma SettlesWithinBudget(nm: Namer, maxPulls: int, maxPerNode: int, steps: seq<Step>, key: Key)
    requires key in Run(nm, Start(maxPulls, maxPerNode), steps).ppis
    ensures var p := Run(nm, Start(maxPulls, maxPerNode), steps).ppis[key];
            && p.moves <= |p.nodeStatus| * (2 * Attempts(p) + 2)
            && (p.nodeStatus != [] && p.moves == |p.nodeStatus| * (2 * Attempts(p) + 2) ==> PhaseRank(p.phase) == 2)
  {
    hide Run;
    RunsKeepAllOk(nm, maxPulls, maxPerNode, steps);
    var p := Run(nm, Start(maxPulls, maxPerNode), steps).ppis[key];
    assert PpiOk(nm, key, p);
    if p.phase.InProgress? {
      InProgressHasLeft(nm, key, p);
    }
    LeftIsNonNegative(nm, key, p);
  }

  // ---------------------------------------------------------------------------------------------
  // Wake-ups
  // ---------------------------------------------------------------------------------------------

  /** The manager reconciles again if asked to with a positive delay, or when the object is written. */
  predicate WokenAgain(w: World, key: Key, r: Reply)
    requires key in w.ppis
  {
    r.outcome.Requeue? || (r.outcome.RequeueAfter? && r.outcome.delay > 0)
    || key !in r.world.ppis || r.world.ppis[key] != w.ppis[key]
  }

  /** The one moment at which a wake-up is lost: age exactly the TTL, where the remaining delay is zero. */
  predicate AtTheTtl(p: PrePullImage, now: int) {
    p.finalizer && !p.deleting && p.completionTime.Some? && now - p.completionTime.value == COMPLETED_TTL
  }

  /** An entry needs no more attention once it is terminal or freshly started. */
  predicate Rests(e: NodeStatus, f: NodeStatus) {
    Terminal(f.status) || (e.status.Pending? && f.status.Pulling?)
  }

  lemma RestsUnlessAttention(e: NodeStatus, f: NodeStatus, maxAttempts: int)
    requires Move(e, f, maxAttempts)
    ensures NeedsAttention(e, f) <==> !Rests(e, f)
    ensures !Terminal(e.status) && e == f ==> NeedsAttention(e, f)
  {
  }

  lemma PassWakes(nm: Namer, w: World, key: Key, env: Env)
    requires AllOk(nm, w) && key in w.ppis && w.ppis[key].phase.InProgress? && !env.writeFails
    ensures WokenAgain(w, key, HandleInProgress(nm, w, key, env))
    ensures var p, q := w.ppis[key], HandleInProgress(nm, w, key, env).world.ppis[key];
            HandleInProgress(nm, w, key, env).outcome.Stop? <==>
              |q.nodeStatus| == |p.nodeStatus| && forall i :: 0 <= i < |p.nodeStatus| ==> Rests(p.nodeStatus[i], q.nodeStatus[i])
    ensures var r := HandleInProgress(nm, w, key, env); !r.outcome.Stop? ==> r.outcome == RequeueAfter(5 * 1_000_000_000)
  {
    var p, q := w.ppis[key], Concluded(w.ppis[key], PassOver(nm, w, key, env), env.now);
    PassConcludes(nm, w, key, env);
    assert PpiOk(nm, key, p);
    var i :| 0 <= i < |p.nodeStatus| && !Terminal(p.nodeStatus[i].status);
    hide FullPass;
    hide PpiOk;
    hide Recount;
    hide PhaseOf;
    forall j | 0 <= j < |p.nodeStatus|
      ensures NeedsAttention(p.nodeStatus[j], q.nodeStatus[j]) <==> !Rests(p.nodeStatus[j], q.nodeStatus[j])
    {
      RestsUnlessAttention(p.nodeStatus[j], q.nodeStatus[j], p.maxAttempts);
    }
    RestsUnlessAttention(p.nodeStatus[i], q.nodeStatus[i], p.maxAttempts);
    hide Move;
    hide Rests;
    hide NeedsAttention;
  }

  /** No lost wake-up, and exactly one exception: a reconcile of an existing object that returns without an
      error is followed by another, unless it looked at a finished object whose age is exactly the TTL. */
  lemma WokenAgainExactlyWhen(nm: Namer, w: World, key: Key, env: Env)
    requires AllOk(nm, w) && key in w.ppis
    requires !Reconcile(nm, w, key, env).outcome.Error?
    ensures WokenAgain(w, key, Reconcile(nm, w, key, env)) <==> !AtTheTtl(w.ppis[key], env.now)
  {
    var p := w.ppis[key];
    assert PpiOk(nm, key, p);
    if !p.deleting && p.finalizer && p.phase.InProgress? {
      PassWakes(nm, w, key, env);
    }
  }

  // ---------------------------------------------------------------------------------------------
  // Expiry
  // ---------------------------------------------------------------------------------------------

  const HOUR := 60 * 60 * 1_000_000_000  // nanoseconds

  predicate Expired(p: PrePullImage, now: int) {
    p.completionTime.Some? && now - p.completionTime.value > COMPLETED_TTL
  }

  /** Exactly when a reconcile whose calls succeed marks a finished object for deletion: when it had target
      nodes and was completed longer than the TTL ago. Otherwise it changes nothing. */
  lemma ExpiresExactlyWhen(nm: Namer, w: World, key: Key, env: Env)
    requires AllOk(nm, w) && key in w.ppis && !w.ppis[key].deleting && PhaseRank(w.ppis[key].phase) == 2
    requires !env.getFails && !env.writeFails
    ensures var p, v := w.ppis[key], Reconcile(nm, w, key, env).world;
            && (key in v.ppis && v.ppis[key].deleting <==> p.nodeStatus != [] && Expired(p, env.now))
            && v == w.(ppis := if Expired(p, env.now) then w.ppis[key := p.(deleting := true)] else w.ppis)
  {
    assert PpiOk(nm, key, w.ppis[key]);
  }

  /** Nobody asks for the object to be deleted. */
  predicate Unasked(steps: seq<Step>, key: Key) {
    forall i :: 0 <= i < |steps| ==> steps[i] != RequestDelete(key)
  }

  /** No reconcile looks at the object when it has expired. */
  predicate Unexpired(steps: seq<Step>, key: Key, p: PrePullImage) {
    forall i :: 0 <= i < |steps| && steps[i].Visit? && steps[i].key == key ==> !Expired(p, steps[i].env.now)
  }

  lemma KeptStep(nm: Namer, w: World, step: Step, key: Key)
    requires AllOk(nm, w) && key in w.ppis && !w.ppis[key].deleting && PhaseRank(w.ppis[key].phase) == 2
    requires step != RequestDelete(key) && Unexpired([step], key, w.ppis[key])
    ensures var v := Apply(nm, w, step); key in v.ppis && v.ppis[key] == w.ppis[key]
  {
    match step
    case Visit(k, env) =>
      if k == key {
        assert [step][0] == step;
        assert PpiOk(nm, key, w.ppis[key]);
      } else {
        ReconcileAdvances(nm, w, k, env);
        hide Reconcile;
      }
    case _ =>
  }

  lemma {:induction false} KeptUntilExpired(nm: Namer, w: World, steps: seq<Step>, key: Key)
    requires AllOk(nm, w) && key in w.ppis && !w.ppis[key].deleting && PhaseRank(w.ppis[key].phase) == 2
    requires Unasked(steps, key) && Unexpired(steps, key, w.ppis[key])
    ensures var v := Run(nm, w, steps); AllOk(nm, v) && key in v.ppis && v.ppis[key] == w.ppis[key]
  {
    if steps != [] {
      var before := steps[..|steps| - 1];
      KeptUntilExpired(nm, w, before, key);
      StepForward(nm, Run(nm, w, before), steps[|steps| - 1]);
      KeptStep(nm, Run(nm, w, before), steps[|steps| - 1], key);
    }
  }

  /** It is looked at every hour all the same. */
  lemma ForgottenIsLookedAtHourly(nm: Namer, w: World, key: Key, env: Env)
    requires AllOk(nm, w) && key in w.ppis && !w.ppis[key].deleting && PhaseRank(w.ppis[key].phase) == 2
    requires w.ppis[key].nodeStatus == [] && !env.getFails
    ensures Reconcile(nm, w, key, env) == Reply(w, RequeueAfter(HOUR))
  {
    assert PpiOk(nm, key, w.ppis[key]);
  }

  /** The record of a live, finished object stays as it is through every run in which nobody asks for its
      deletion, if and only if it was completed for lack of nodes; any other expires. */
  lemma NeverExpiresExactlyWhen(nm: Namer, w: World, key: Key)
    requires AllOk(nm, w) && key in w.ppis && !w.ppis[key].deleting && PhaseRank(w.ppis[key].phase) == 2
    ensures (forall steps :: Unasked(steps, key) ==>
               key in Run(nm, w, steps).ppis && Run(nm, w, steps).ppis[key] == w.ppis[key])
            <==> w.ppis[key].nodeStatus == []
  {
    var p := w.ppis[key];
    if p.nodeStatus == [] {
      forall steps | Unasked(steps, key) ensures key in Run(nm, w, steps).ppis && Run(nm, w, steps).ppis[key] == p {
        assert PpiOk(nm, key, p);
        KeptUntilExpired(nm, w, steps, key);
      }
    } else {
      assert PpiOk(nm, key, p);
      var late := Env(false, p.completionTime.value + COMPLETED_TTL + 1, None, [], false, {});
      ExpiresExactlyWhen(nm, w, key, late);
      var steps := [Visit(key, late)];
      assert Unasked(steps, key);
      assert steps[..0] == [];
      assert Run(nm, w, steps) == Apply(nm, Run(nm, w, []), Visit(key, late));
    }
  }

  /** The reconcile that finishes an object stamps it with its own time. */
  lemma FinishIsStamped(nm: Namer, w: World, key: Key, env: Env)
    requires AllOk(nm, w) && key in w.ppis && w.ppis[key].phase.InProgress?
    requires var v := Reconcile(nm, w, key, env).world; key in v.ppis && PhaseRank(v.ppis[key].phase) == 2
    ensures var q := Reconcile(nm, w, key, env).world.ppis[key];
            q.completionTime == Some(env.now) && q.nodeStatus != [] && q.deleting == w.ppis[key].deleting
  {
    assert PpiOk(nm, key, w.ppis[key]);
    PassConcludes(nm, w, key, env);
    hide FullPass;
  }

  lemma LookAtFinished(nm: Namer, w: World, key: Key, env: Env)
    requires AllOk(nm, w) && key in w.ppis && !w.ppis[key].deleting && w.ppis[key].completionTime.Some?
    requires !env.getFails && !env.writeFails
    ensures var p, r := w.ppis[key], Reconcile(nm, w, key, env);
            var due := p.completionTime.value + HOUR;
            if env.now <= due then r == Reply(w, RequeueAfter(due - env.now))
            else r.outcome.Stop? && r.world == w.(ppis := w.ppis[key := p.(deleting := true)])
  {
    assert PpiOk(nm, key, w.ppis[key]);
  }

  /** An object expires one hour after it was finished, whatever happens meanwhile: from the reconcile that finishes it
      on, through every run in which nobody asks for its deletion, its record stays as it is as long as it is looked at
      within the hour; every such look asks to come back when the hour is over; and the first look after it whose
      calls succeed marks it for deletion. */
  lemma ExpiresAfterItsHour(nm: Namer, w: World, key: Key, env: Env, steps: seq<Step>, look: Env)
    requires AllOk(nm, w) && key in w.ppis && w.ppis[key].phase.InProgress? && !w.ppis[key].deleting
    requires var v := Reconcile(nm, w, key, env).world; key in v.ppis && PhaseRank(v.ppis[key].phase) == 2
    requires Unasked(steps, key)
    requires forall i :: 0 <= i < |steps| && steps[i].Visit? && steps[i].key == key ==> steps[i].env.now <= env.now + HOUR
    requires !look.getFails && !look.writeFails
    ensures var v := Reconcile(nm, w, key, env).world;
            var u := Run(nm, v, steps);
            && key in u.ppis && u.ppis[key] == v.ppis[key] && !u.ppis[key].deleting
            && var r := Reconcile(nm, u, key, look);
               if look.now <= env.now + HOUR then
                 r == Reply(u, RequeueAfter(env.now + HOUR - look.now))
               else
                 r.outcome.Stop? && r.world == u.(ppis := u.ppis[key := v.ppis[key].(deleting := true)])
  {
    hide *;
    FinishIsStamped(nm, w, key, env);
    VisitForward(nm, w, key, env);
    HourAfter(nm, Reconcile(nm, w, key, env).world, key, env.now, steps, look);
  }

  lemma VisitForward(nm: Namer, w: World, key: Key, env: Env)
    requires AllOk(nm, w)
    ensures AllOk(nm, Reconcile(nm, w, key, env).world)
  {
    StepForward(nm, w, Visit(key, env));
  }

  lemma HourAfter(nm: Namer, v: World, key: Key, t: int, steps: seq<Step>, look: Env)
    requires AllOk(nm, v) && key in v.ppis && PhaseRank(v.ppis[key].phase) == 2 && !v.ppis[key].deleting
    requires v.ppis[key].completionTime == Some(t)
    requires Unasked(steps, key)
    requires forall i :: 0 <= i < |steps| && steps[i].Visit? && steps[i].key == key ==> steps[i].env.now <= t + HOUR
    requires !look.getFails && !look.writeFails
    ensures var u := Run(nm, v, steps);
            && key in u.ppis && u.ppis[key] == v.ppis[key]
            && var r := Reconcile(nm, u, key, look);
               if look.now <= t + HOUR then r == Reply(u, RequeueAfter(t + HOUR - look.now))
               else r.outcome.Stop? && r.world == u.(ppis := u.ppis[key := v.ppis[key].(deleting := true)])
  {
    assert Unexpired(steps, key, v.ppis[key]);
    KeptUntilExpired(nm, v, steps, key);
    LookAtFinished(nm, Run(nm, v, steps), key, look);
    hide Reconcile;
    hide AllOk;
  }

  /** An object whose phase is terminal holds no slot, so its finalizer, whoever deleted it, gives none back. */
  lemma ExpiryReleasesNothing(nm: Namer, w: World, key: Key, env: Env)
    requires AllOk(nm, w) && key in w.ppis && PhaseRank(w.ppis[key].phase) == 2
    ensures var v := HandleDeletion(w, key, env).world; v.limiter == w.limiter && v.metrics == w.metrics
  {
    var es := w.ppis[key].nodeStatus;
    assert PpiOk(nm, key, w.ppis[key]);
    assert forall i :: 0 <= i < |es| ==> Terminal(es[i].status);
    TallyBounds(es, InStatus(Pulling));
    NothingToRelease(w.limiter, es);
  }

  lemma {:induction false} NothingToRelease(l: Limiter, es: seq<NodeStatus>)
    requires forall i :: 0 <= i < |es| ==> !es[i].status.Pulling?
    ensures ReleaseAll(l, es) == l
  {
    if es != [] {
      NothingToRelease(l, es[..|es| - 1]);
    }
  }

  // ---------------------------------------------------------------------------------------------
  // Free slots
  // ---------------------------------------------------------------------------------------------

  predicate NonePulling(es: seq<NodeStatus>) {
    forall i :: 0 <= i < |es| ==> !es[i].status.Pulling?
  }

  /** The status an entry's job is found in makes the entry leave Pulling. */
  predicate Ended(found: JobStatus) {
    found.JobSucceeded? || found.JobFailed?
  }

  /** The entry changes status when it is handled with this limiter and store. */
  predicate RipeNow(l: Limiter, store: JobStore, e: NodeStatus, w: Weather) {
    match e.status
    case Pending => l.Grants(e.node) && w.create.Accepted?
    case Pulling => !w.getFails && Ended(StatusOf(store, e.jobName))
    case _ => false
  }

  /** Entry i can change its status in the pass: it is Pending, the limiter would grant its node a slot before the
      pass, and its job can be created; or it is Pulling, and its job is found to have ended when it is looked up. */
  predicate Ripe(nm: Namer, key: Key, p: PrePullImage, s0: State, weather: seq<Weather>, i: nat)
    requires i < |s0.entries|
  {
    var w := At(weather, i);
    RipeNow(s0.limiter, DriftedAll(After(nm, key, p, s0, weather, i).store, w.drift), s0.entries[i], w)
  }

  predicate AnyRipe(nm: Namer, key: Key, p: PrePullImage, s0: State, weather: seq<Weather>, n: nat)
    requires n <= |s0.entries|
  {
    exists i :: 0 <= i < n && Ripe(nm, key, p, s0, weather, i)
  }

  lemma HandleMovesExactlyWhen(nm: Namer, key: Key, p: PrePullImage, s: State, i: nat, w: Weather)
    requires i < |s.entries|
    ensures var t, e := Handle(nm, key, p, s, i, w), s.entries[i];
            if RipeNow(s.limiter, DriftedAll(s.store, w.drift), e, w) then t.entries[i].status != e.status
            else t.limiter == s.limiter && t.entries == s.entries
  {
  }

  /** As long as no entry was ripe, nothing has changed; so the first to change is one that was ripe. */
  lemma {:induction false} MovesOnceRipe(nm: Namer, key: Key, p: PrePullImage, s0: State, weather: seq<Weather>, n: nat)
    requires n <= |s0.entries|
    ensures var s := After(nm, key, p, s0, weather, n);
            if AnyRipe(nm, key, p, s0, weather, n) then StatusChanged(s0.entries, s.entries)
            else s.limiter == s0.limiter && s.entries == s0.entries
    decreases n
  {
    hide Handle;
    if n > 0 {
      MovesOnceRipe(nm, key, p, s0, weather, n - 1);
      EntriesMove(nm, key, p, s0, weather, n - 1);
      var s, w := After(nm, key, p, s0, weather, n - 1), At(weather, n - 1);
      var t := After(nm, key, p, s0, weather, n);
      HandleMovesExactlyWhen(nm, key, p, s, n - 1, w);
      HandleMoves(nm, key, p, s, n - 1, w);
      if AnyRipe(nm, key, p, s0, weather, n - 1) {
        var j :| 0 <= j < |s0.entries| && s0.entries[j].status != s.entries[j].status;
        assert j != n - 1 && t.entries[j] == s.entries[j];
        var i :| 0 <= i < n - 1 && Ripe(nm, key, p, s0, weather, i);
      } else if Ripe(nm, key, p, s0, weather, n - 1) {
        assert s0.entries[n - 1].status != t.entries[n - 1].status;
      }
    }
  }

  /** Exactly when a pass changes the status of some entry: when one of them is ripe. */
  lemma PassMovesExactlyWhen(nm: Namer, w: World, key: Key, env: Env)
    requires key in w.ppis
    ensures var p := w.ppis[key];
            var s0 := Begin(w.limiter, w.store, w.metrics, p.nodeStatus);
            StatusChanged(p.nodeStatus, PassOver(nm, w, key, env).entries)
            <==> exists i :: 0 <= i < |p.nodeStatus| && Ripe(nm, key, p, s0, env.weather, i)
  {
    var p := w.ppis[key];
    MovesOnceRipe(nm, key, p, Begin(w.limiter, w.store, w.metrics, p.nodeStatus), env.weather, |p.nodeStatus|);
  }

  /** Some pull was started. */
  predicate Starts(es: seq<NodeStatus>, fs: seq<NodeStatus>) {
    exists i :: 0 <= i < |es| && i < |fs| && es[i].status.Pending? && fs[i].status.Pulling?
  }

  predicate AllAccepted(weather: seq<Weather>) {
    forall i :: 0 <= i < |weather| ==> weather[i].create.Accepted?
  }

  predicate Granted(l: Limiter, es: seq<NodeStatus>) {
    exists i :: 0 <= i < |es| && es[i].status.Pending? && l.Grants(es[i].node)
  }

  /** Exactly when a pass over a PrePullImage without Pulling entries starts a pull, if job creation works:
      when the limiter would grant a slot to one of its Pending entries before the pass. */
  lemma PassStartsExactlyWhen(nm: Namer, w: World, key: Key, env: Env)
    requires key in w.ppis && NonePulling(w.ppis[key].nodeStatus) && AllAccepted(env.weather)
    ensures var es := w.ppis[key].nodeStatus;
            Granted(w.limiter, es) <==> Starts(es, PassOver(nm, w, key, env).entries)
  {
    var p, fs := w.ppis[key], PassOver(nm, w, key, env).entries;
    var es := p.nodeStatus;
    var s0 := Begin(w.limiter, w.store, w.metrics, es);
    hide PassOver;
    PassMovesExactlyWhen(nm, w, key, env);
    EntriesMoveOver(nm, w, key, env);
    forall i | 0 <= i < |es|
      ensures Ripe(nm, key, p, s0, env.weather, i) <==> es[i].status.Pending? && w.limiter.Grants(es[i].node)
      ensures es[i].status != fs[i].status <==> es[i].status.Pending? && fs[i].status.Pulling?
    {
      assert Move(es[i], fs[i], p.maxAttempts);
    }
  }

  lemma EntriesMoveOver(nm: Namer, w: World, key: Key, env: Env)
    requires key in w.ppis
    ensures var p := w.ppis[key];
            Moved(nm, key, p.nodeStatus, PassOver(nm, w, key, env).entries, |p.nodeStatus|, p.maxAttempts)
  {
    var p := w.ppis[key];
    EntriesMove(nm, key, p, Begin(w.limiter, w.store, w.metrics, p.nodeStatus), env.weather, |p.nodeStatus|);
  }

  // ---------------------------------------------------------------------------------------------
  // No deadlock, and the one way into starvation
  // ---------------------------------------------------------------------------------------------

  /** The starts whose record was lost since the last restart leave a slot for one of the Pending entries. */
  predicate Spared(w: World, es: seq<NodeStatus>) {
    && |w.past.lostStarts| < w.limiter.maxPulls
    && exists i :: 0 <= i < |es| && es[i].status.Pending? && w.past.lostStarts[es[i].node] < w.limiter.maxPerNode
  }

  /** No deadlock: if no entry anywhere is Pulling, every InProgress PrePullImage gets a pull going at its next
      pass, provided job creation works and the starts whose record was lost since the last restart have not
      used up the slots; any number of restarts and lost stops do no harm. In particular if none was lost. Before
      the first restart, and without lost stops, that is exactly when it gets one going. */
  lemma NoDeadlock(nm: Namer, maxPulls: int, maxPerNode: int, steps: seq<Step>, key: Key, env: Env)
    requires var w := Run(nm, Start(maxPulls, maxPerNode), steps);
      Pulls(w, Whole) == 0 && key in w.ppis && w.ppis[key].phase.InProgress?
    requires AllAccepted(env.weather)
    ensures var w := Run(nm, Start(maxPulls, maxPerNode), steps);
            var es, starts := w.ppis[key].nodeStatus, Starts(w.ppis[key].nodeStatus, PassOver(nm, w, key, env).entries);
            && (w.past.lostStarts == multiset{} ==> starts)
            && (Spared(w, es) ==> starts)
            && (w.past.restarts == 0 && w.past.lostStops == multiset{} ==> (starts <==> Spared(w, es)))
  {
    hide Run;
    hide PassOver;
    var w := Run(nm, Start(maxPulls, maxPerNode), steps);
    var es := w.ppis[key].nodeStatus;
    RunsKeepAllOk(nm, maxPulls, maxPerNode, steps);
    assert PpiOk(nm, key, w.ppis[key]);
    NonePullingAnywhere(w, key);
    PassStartsExactlyWhen(nm, w, key, env);
    var i :| 0 <= i < |es| && !Terminal(es[i].status);
    assert es[i].status.Pending?;
    CountersAtRest(nm, maxPulls, maxPerNode, steps, Whole);
    forall j | 0 <= j < |es|
      ensures w.limiter.Held(OnNode(es[j].node)) <= w.past.lostStarts[es[j].node]
      ensures w.past.restarts == 0 && w.past.lostStops == multiset{} ==>
                w.limiter.Held(OnNode(es[j].node)) == w.past.lostStarts[es[j].node]
    {
      CountersAtRest(nm, maxPulls, maxPerNode, steps, OnNode(es[j].node));
    }
  }

  /** With nothing Pulling anywhere a counter is at most the lost starts on its slot, and exactly that before
      the first restart and lost stop. */
  lemma CountersAtRest(nm: Namer, maxPulls: int, maxPerNode: int, steps: seq<Step>, slot: Slot)
    requires Pulls(Run(nm, Start(maxPulls, maxPerNode), steps), Whole) == 0
    ensures var w := Run(nm, Start(maxPulls, maxPerNode), steps);
            && w.limiter.Held(slot) <= Share(w.past.lostStarts, slot)
            && (w.past.restarts == 0 && w.past.lostStops == multiset{} ==> w.limiter.Held(slot) == Share(w.past.lostStarts, slot))
  {
    hide Run;
    var w := Run(nm, Start(maxPulls, maxPerNode), steps);
    RunsInLedger(nm, maxPulls, maxPerNode, steps, slot);
    RunsLeak(nm, maxPulls, maxPerNode, steps, slot);
    UsingEverywhere(w.ppis, slot);
    if slot.OnNode? {
      NodesWithinWhole(w.ppis, slot.node);
    }
  }

  lemma NonePullingAnywhere(w: World, key: Key)
    requires Pulls(w, Whole) == 0 && key in w.ppis
    ensures NonePulling(w.ppis[key].nodeStatus)
  {
    var es := w.ppis[key].nodeStatus;
    UsingEverywhere(w.ppis, Whole);
    TallyBounds(es, Using(Whole));
    forall i | 0 <= i < |es| ensures !es[i].status.Pulling? {
      assert Weight(Using(Whole), es[i]) <= 0;
    }
  }

  lemma {:induction false} NodesWithinWhole(ppis: map<Key, PrePullImage>, node: string)
    ensures Everywhere(ppis, Using(OnNode(node))) <= Everywhere(ppis, Using(Whole))
    decreases |ppis|
  {
    if k :| k in ppis {
      assert (ppis - {k}).Keys == ppis.Keys - {k};
      NodesWithinWhole(ppis - {k}, node);
      EverywhereDrop(ppis, k, Using(OnNode(node)));
      EverywhereDrop(ppis, k, Using(Whole));
      var es := ppis[k].nodeStatus;
      TallyMixed(es, node);
    }
  }

  lemma {:induction false} TallyMixed(es: seq<NodeStatus>, node: string)
    ensures Tally(es, Using(OnNode(node))) <= Tally(es, Using(Whole))
  {
    if es != [] {
      TallyMixed(es[..|es| - 1], node);
    }
  }

  /** Every slot of the cluster is taken although nothing is pulling. */
  ghost predicate Starved(w: World) {
    w.limiter.current >= w.limiter.maxPulls && Pulls(w, Whole) == 0
  }

  predicate NoRestart(steps: seq<Step>) {
    forall i :: 0 <= i < |steps| ==> !steps[i].Restart? && !steps[i].Crash?
  }

  lemma StarvedReconcile(nm: Namer, w: World, key: Key, env: Env)
    requires AllOk(nm, w) && Starved(w)
    ensures Starved(Reconcile(nm, w, key, env).world)
  {
    if key in w.ppis && !env.getFails {
      var p := w.ppis[key];
      assert PpiOk(nm, key, p);
      NonePullingAnywhere(w, key);
      if p.deleting {
        NothingToRelease(w.limiter, p.nodeStatus);
        EverywhereDrop(w.ppis, key, Using(Whole));
        StarvedTallies(p.nodeStatus);
      } else if p.finalizer && p.phase.InProgress? {
        var s0 := Begin(w.limiter, w.store, w.metrics, p.nodeStatus);
        var s := PassOver(nm, w, key, env);
        MovesOnceRipe(nm, key, p, s0, env.weather, |p.nodeStatus|);
        assert s.limiter == w.limiter && s.entries == p.nodeStatus;
        UnchangedEntries(w.ppis, key, Concluded(p, s, env.now), Using(Whole));
      } else {
        StarvedQuiet(nm, w, key, env);
      }
    }
  }

  lemma StarvedTallies(es: seq<NodeStatus>)
    requires NonePulling(es)
    ensures Tally(es, Using(Whole)) == 0
  {
    TallyBounds(es, Using(Whole));
  }

  lemma StarvedQuiet(nm: Namer, w: World, key: Key, env: Env)
    requires AllOk(nm, w) && Starved(w)
    requires key in w.ppis && !w.ppis[key].deleting && !(w.ppis[key].finalizer && w.ppis[key].phase.InProgress?)
    ensures Starved(Reconcile(nm, w, key, env).world)
  {
    QuietWeights(nm, w, key, env, Using(Whole));
  }

  /** Starvation is for good: from such a state no sequence of steps without a restart starts a pull. */
  lemma {:induction false} StarvedForEver(nm: Namer, w: World, steps: seq<Step>)
    requires AllOk(nm, w) && Starved(w) && NoRestart(steps)
    ensures AllOk(nm, Run(nm, w, steps)) && Starved(Run(nm, w, steps))
  {
    if steps != [] {
      var before, step := steps[..|steps| - 1], steps[|steps| - 1];
      StarvedForEver(nm, w, before);
      var v := Run(nm, w, before);
      StepForward(nm, v, step);
      match step
      case Submit(k, image, names, max) => EverywherePut(v.ppis, k, Submitted(image, names, max), Using(Whole));
      case RequestDelete(k) => DeleteTakesNothing(v.ppis, k, Using(Whole));
      case Visit(k, env) => StarvedReconcile(nm, v, k, env);
      case Outside(d) =>
    }
  }
}
