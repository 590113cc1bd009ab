/** What becomes of one entry in one pass, told from the limiter's counters and the pods its job reports: who gets a
    job, which job it is, and when a pull counts as done. */
module PullOutcomes {
  import opened RateLimiting
  import opened Cluster
  import opened Pass
  import opened System
  import opened Lifecycle
  import opened Jobs

  /** A job runs as long as it has reported no finished pod; one succeeded pod is a success, whatever failed before. */
  lemma StatusFromPods(j: Job)
    ensures Unfinished(j) <==> j.succeeded == 0 == j.failed
    ensures GetJobStatus(Some(j)).JobSucceeded? <==> j.succeeded >= 1
    ensures GetJobStatus(Some(j)).JobFailed? <==> j.succeeded == 0 && j.failed >= 1
    ensures GetJobStatus(Some(j)).JobRunning? <==> Unfinished(j) && j.active >= 1
  {
  }

  // ---------------------------------------------------------------------------------------------
  // One turn
  // ---------------------------------------------------------------------------------------------

  /** The job an entry is concerned with: the one it watches, or the one it would be started on. */
  function Concern(nm: Namer, key: Key, e: NodeStatus): string {
    if e.status.Pending? then nm(key.name, e.node) else e.jobName
  }

  /** There is no job under the name, or it has reported a finished pod. */
  predicate NotRunning(store: JobStore, name: string) {
    name in store.jobs ==> store.jobs[name].succeeded > 0 || store.jobs[name].failed > 0
  }

  /** A Pulling entry becomes f. If its job could not be read nothing happens. Otherwise one succeeded pod completes
      the pull; without one, a failed pod or a missing job ends the attempt, which is the last if the retries are
      used up; without either the pull goes on. Only a retry touches the store, and removes just this job. */
  predicate Decided(e: NodeStatus, f: NodeStatus, maxAttempts: int, s: JobStore, t: JobStore, w: Weather) {
    var missing := e.jobName !in s.jobs;
    var succeeded := !missing && s.jobs[e.jobName].succeeded > 0;
    var failed := !succeeded && (missing || s.jobs[e.jobName].failed > 0);
    if w.getFails then f == e && t == s
    else
      && (succeeded <==> f == e.(status := Completed))
      && (failed && e.retryCount >= maxAttempts <==> f == e.(status := Failed))
      && (failed && e.retryCount < maxAttempts <==> f == e.(status := Pending, retryCount := e.retryCount + 1))
      && (!succeeded && !failed <==> f == e)
      && t.jobs.Keys == (if f.status.Pending? && !w.deleteFails then s.jobs.Keys - {e.jobName} else s.jobs.Keys)
  }

  /** The job in t is the one in s; only how it stands to its entry may be noted differently. */
  predicate SameJob(j: Job, k: Job) {
    k == j.(tie := k.tie)
  }

  /** A Pending entry becomes f, in view of a limiter with counters below or at their limits. It is started exactly if
      both the cluster and its node have room and the creation works. A started entry has a job under its name: the
      one that was there, unchanged, or a new one for its image and node that has reported nothing yet. */
  predicate Offered(nm: Namer, key: Key, image: string, e: NodeStatus, f: NodeStatus, i: nat, l: Limiter,
                    s: JobStore, t: JobStore, w: Weather) {
    var name := nm(key.name, e.node);
    var room := l.current < l.maxPulls && (if e.node in l.perNode then l.perNode[e.node] else 0) < l.maxPerNode;
    && (f.status.Pulling? <==> room && w.create.Accepted?)
    && (f.status.Pending? <==> !(room && w.create.Accepted?))
    && (f.status.Pulling? ==> f.jobName == name && f.found == s.Found(name))
    && t.jobs.Keys == (if room && !w.create.Refused? then s.jobs.Keys + {name} else s.jobs.Keys)
    && (name in t.jobs && name !in s.jobs ==>
          var j := t.jobs[name];
          && j.owner == key && j.image == image && j.node == e.node && j.index == i
          && j.active == j.succeeded == j.failed == 0)
  }

  /** Whatever an entry's turn does, no other job is touched, and its own keeps what it has reported. */
  predicate Minds(s: JobStore, t: JobStore, name: string) {
    && t.pulled == s.pulled
    && t.jobs - {name} == s.jobs - {name}
    && (name in s.jobs && name in t.jobs ==> SameJob(s.jobs[name], t.jobs[name]))
  }

  /** One turn, from the store as the turn finds it. */
  lemma HandleOutcome(nm: Namer, key: Key, p: PrePullImage, s: State, i: nat, w: Weather)
    requires i < |s.entries|
    ensures var e, t, store := s.entries[i], Handle(nm, key, p, s, i, w), DriftedAll(s.store, w.drift);
            var f := t.entries[i];
            && Minds(store, t.store, Concern(nm, key, e))
            && match e.status {
                 case Pulling => Decided(e, f, p.maxAttempts, store, t.store, w)
                 case Pending => Offered(nm, key, p.image, e, f, i, s.limiter, store, t.store, w)
                 case _ => f == e && t.store == store
               }
  {
    hide DriftedAll;
    var e, t, store := s.entries[i], Handle(nm, key, p, s, i, w), DriftedAll(s.store, w.drift);
    if Creates(s.limiter, e, w) {
      assert t.store.jobs.Keys == store.jobs.Keys + {nm(key.name, e.node)};
    }
  }

  // ---------------------------------------------------------------------------------------------
  // A whole pass
  // ---------------------------------------------------------------------------------------------

  /** An entry is as recorded when its turn comes, and keeps what its turn made of it. */
  lemma {:induction false} TurnsAreApart(nm: Namer, key: Key, p: PrePullImage, s0: State, weather: seq<Weather>, i: nat, n: nat)
    requires i < n <= |s0.entries|
    ensures After(nm, key, p, s0, weather, i).entries[i] == s0.entries[i]
    ensures After(nm, key, p, s0, weather, n).entries[i] == After(nm, key, p, s0, weather, i + 1).entries[i]
    decreases n
  {
    hide Handle;
    EntriesMove(nm, key, p, s0, weather, i);
    if i < n - 1 {
      TurnsAreApart(nm, key, p, s0, weather, i, n - 1);
      HandleMoves(nm, key, p, After(nm, key, p, s0, weather, n - 1), n - 1, At(weather, n - 1));
    }
  }

  /** What every entry comes to in a pass, from the limiter and the jobs as its turn finds them, and what its turn does
      to the jobs. */
  lemma PassOutcome(nm: Namer, w: World, key: Key, env: Env, i: nat)
    requires key in w.ppis && i < |w.ppis[key].nodeStatus|
    ensures var p := w.ppis[key];
            var s0 := Begin(w.limiter, w.store, w.metrics, p.nodeStatus);
            var weather := At(env.weather, i);
            var before := After(nm, key, p, s0, env.weather, i);
            var store, after := DriftedAll(before.store, weather.drift), After(nm, key, p, s0, env.weather, i + 1).store;
            var e, f := p.nodeStatus[i], PassOver(nm, w, key, env).entries[i];
            && Minds(store, after, Concern(nm, key, e))
            && match e.status {
                 case Pulling => Decided(e, f, p.maxAttempts, store, after, weather)
                 case Pending => Offered(nm, key, p.image, e, f, i, before.limiter, store, after, weather)
                 case _ => f == e
               }
  {
    hide Handle;
    hide Decided;
    hide Offered;
    hide Minds;
    hide DriftedAll;
    var p := w.ppis[key];
    var s0 := Begin(w.limiter, w.store, w.metrics, p.nodeStatus);
    TurnsAreApart(nm, key, p, s0, env.weather, i, |p.nodeStatus|);
    HandleOutcome(nm, key, p, After(nm, key, p, s0, env.weather, i), i, At(env.weather, i));
  }

  /** What a pass has done to limiter, metrics and jobs stays done whether or not its result can be written; the record
      takes over the entries exactly if it can. */
  lemma PassLeavesTraces(nm: Namer, w: World, key: Key, env: Env)
    requires AllOk(nm, w) && key in w.ppis && w.ppis[key].phase.InProgress? && !w.ppis[key].deleting && !env.getFails
    ensures var s, r := PassOver(nm, w, key, env), Reconcile(nm, w, key, env);
            var v := r.world;
            && v.limiter == s.limiter && v.metrics == s.metrics
            && v.store.pulled == s.store.pulled && v.store.jobs.Keys == s.store.jobs.Keys
            && (forall n :: n in s.store.jobs ==> SameJob(s.store.jobs[n], v.store.jobs[n]))
            && v.ppis.Keys == w.ppis.Keys && (forall k :: k in w.ppis && k != key ==> v.ppis[k] == w.ppis[k])
            && (if env.writeFails then v.ppis[key] == w.ppis[key] && r.outcome.Error? else v.ppis[key].nodeStatus == s.entries)
  {
    assert PpiOk(nm, key, w.ppis[key]);
    hide PassOver;
  }

  // ---------------------------------------------------------------------------------------------
  // A finished pull is noticed
  // ---------------------------------------------------------------------------------------------

  lemma DriftKeepsNotRunning(s: JobStore, ds: seq<Drift>, name: string)
    requires NotRunning(s, name)
    ensures NotRunning(DriftedAll(s, ds), name)
  {
    DriftIsDrift(s, ds);
  }

  /** Turns of entries with other job names do not set the job going again. */
  lemma {:induction false} StaysNotRunning(nm: Namer, key: Key, p: PrePullImage, s0: State, weather: seq<Weather>, n: nat, name: string)
    requires n <= |s0.entries| && NotRunning(s0.store, name)
    requires forall j :: 0 <= j < n ==> Concern(nm, key, s0.entries[j]) != name
    ensures NotRunning(After(nm, key, p, s0, weather, n).store, name)
    decreases n
  {
    hide Handle;
    if n > 0 {
      StaysNotRunning(nm, key, p, s0, weather, n - 1, name);
      TurnsAreApart(nm, key, p, s0, weather, n - 1, n);
      var s := After(nm, key, p, s0, weather, n - 1);
      DriftKeepsNotRunning(s.store, At(weather, n - 1).drift, name);
      HandleOutcome(nm, key, p, s, n - 1, At(weather, n - 1));
      var store, t := DriftedAll(s.store, At(weather, n - 1).drift), After(nm, key, p, s0, weather, n).store;
      var other := Concern(nm, key, s0.entries[n - 1]);
      assert (t.jobs - {other}).Keys == t.jobs.Keys - {other};
      assert name in t.jobs ==> (t.jobs - {other})[name] == (store.jobs - {other})[name];
    }
  }

  /** No pull hangs on a finished job: in every reachable state, if the job of a Pulling entry has reported a succeeded
      or a failed pod, or is gone, the next recorded reconcile that can read it takes the entry out of Pulling,
      whatever jobs do and calls answer meanwhile; as long as no other entry of the object goes by that job name. */
  lemma FinishedPullIsNoticed(nm: Namer, maxPulls: int, maxPerNode: int, steps: seq<Step>, key: Key, i: nat, env: Env)
    requires key in Run(nm, Start(maxPulls, maxPerNode), steps).ppis
    requires var p := Run(nm, Start(maxPulls, maxPerNode), steps).ppis[key];
      && !p.deleting && i < |p.nodeStatus| && p.nodeStatus[i].status.Pulling?
      && forall j :: 0 <= j < |p.nodeStatus| && j != i ==> Concern(nm, key, p.nodeStatus[j]) != p.nodeStatus[i].jobName
    requires var w := Run(nm, Start(maxPulls, maxPerNode), steps); NotRunning(w.store, w.ppis[key].nodeStatus[i].jobName)
    requires !env.getFails && !env.writeFails && !At(env.weather, i).getFails
    ensures var w := Run(nm, Start(maxPulls, maxPerNode), steps);
            var v := Reconcile(nm, w, key, env).world;
            && key in v.ppis && i < |v.ppis[key].nodeStatus| && !v.ppis[key].nodeStatus[i].status.Pulling?
  {
    hide Run;
    hide Handle;
    RunsKeepAllOk(nm, maxPulls, maxPerNode, steps);
    var w := Run(nm, Start(maxPulls, maxPerNode), steps);
    var p := w.ppis[key];
    assert PpiOk(nm, key, p);
    assert p.phase.InProgress? by {
      assert !Terminal(p.nodeStatus[i].status);
    }
    var s0 := Begin(w.limiter, w.store, w.metrics, p.nodeStatus);
    var name := p.nodeStatus[i].jobName;
    StaysNotRunning(nm, key, p, s0, env.weather, i, name);
    DriftKeepsNotRunning(After(nm, key, p, s0, env.weather, i).store, At(env.weather, i).drift, name);
    PassOutcome(nm, w, key, env, i);
    hide PassOver;
  }
}
