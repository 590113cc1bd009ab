/** The reconciler as it runs: objects updated in place, API calls that may fail, one shared limiter
    (internal/controller/prepullimage_controller.go). Its methods are proved against the functions of the
    modules Pass and System, about which everything else is proved. */
module Controller {
  import opened RateLimiting
  import opened Cluster
  import opened Pass
  import opened System

  datatype CreateError = NoError | AlreadyExists | OtherError

  /** The store behind the Kubernetes API. */
  class ApiServer {
    var ppis: map<Key, PrePullImage>
    var jobs: map<string, Job>
    ghost var pulled: set<(string, string)>

    constructor ()
      ensures ppis == map[] && jobs == map[] && pulled == {}
    {
      ppis, jobs, pulled := map[], map[], {};
    }

    ghost function Store(): JobStore
      reads this
    {
      JobStore(jobs, pulled)
    }

    /** Jobs make progress or vanish on their own. */
    method JobsDrift(ds: seq<Drift>)
      modifies this
      ensures Store() == DriftedAll(old(Store()), ds)
      ensures ppis == old(ppis)
    {
      var i := 0;
      while i < |ds|
        invariant i <= |ds| && ppis == old(ppis)
        invariant DriftedAll(Store(), ds[i..]) == DriftedAll(old(Store()), ds)
      {
        ghost var before := Store();
        match ds[i] {
          case Report(name, active, succeeded, failed) =>
            if name in jobs && jobs[name].succeeded <= succeeded && jobs[name].failed <= failed {
              var j := jobs[name];
              jobs := jobs[name := j.(active := active, succeeded := succeeded, failed := failed)];
              if succeeded > 0 {
                pulled := pulled + {(j.image, j.node)};
              }
            }
          case Vanish(name) => jobs := jobs - {name};
        }
        assert Store() == Drifted(before, ds[i]);
        assert ds[i..][1..] == ds[i + 1..];
        i := i + 1;
      }
    }

    method CreateJob(name: string, job: Job, answer: CreateAnswer) returns (err: CreateError)
      modifies this`jobs
      ensures Store() == if answer.Refused? then old(Store()) else old(Store()).Put(name, job)
      ensures err == if !answer.Accepted? then OtherError else if name in old(jobs) then AlreadyExists else NoError
    {
      if answer.Refused? {
        return OtherError;
      }
      if name in jobs {
        return if answer.TimedOut? then OtherError else AlreadyExists;
      }
      jobs := jobs[name := job];
      return if answer.TimedOut? then OtherError else NoError;
    }

    method DeleteJob(name: string, fails: bool) returns (ok: bool)
      modifies this`jobs
      ensures Store() == if fails then old(Store()) else old(Store()).Remove(name)
      ensures ok == (!fails && name in old(jobs))
    {
      if fails {
        return false;
      }
      ok := name in jobs;
      jobs := jobs - {name};
    }

    /** Lists the jobs with a label, in some order. */
    method ListJobs(ppiName: string) returns (names: seq<string>)
      ensures forall n :: n in names <==> n in Store().Labelled(ppiName)
      ensures forall i, j :: 0 <= i < j < |names| ==> names[i] != names[j]
    {
      names := [];
      var rest := jobs.Keys;
      while rest != {}
        invariant rest <= jobs.Keys
        invariant forall n :: n in names <==> n in Store().Labelled(ppiName) && n !in rest
        invariant forall i, j :: 0 <= i < j < |names| ==> names[i] != names[j]
        decreases rest
      {
        var n :| n in rest;
        rest := rest - {n};
        if jobs[n].owner.name == ppiName {
          names := names + [n];
        }
      }
    }

    // History: how jobs stand to the entries that made them.

    method Rebind(name: string, key: Key, i: nat)
      modifies this`jobs
      ensures Store() == old(Store()).Rebind(name, key, i)
    {
      if name in jobs && jobs[name].tie.Loose? && jobs[name].owner == key && jobs[name].index == i {
        jobs := jobs[name := jobs[name].(tie := Bound)];
      }
    }

    method Spend(name: string)
      modifies this`jobs
      ensures Store() == old(Store()).Spend(name)
    {
      if name in jobs && jobs[name].tie.Bound? {
        jobs := jobs[name := jobs[name].(tie := Spent)];
      }
    }

    method Loosen(names: set<string>, key: Key)
      modifies this`jobs
      ensures Store() == old(Store()).Loosen(names, key)
    {
      jobs := map n | n in jobs ::
        if n in names && jobs[n].owner == key && jobs[n].tie.Bound? then jobs[n].(tie := Loose) else jobs[n];
    }

    method Orphan(key: Key)
      modifies this`jobs
      ensures Store() == old(Store()).Orphan(key)
    {
      jobs := map n | n in jobs :: if jobs[n].owner == key then jobs[n].(tie := Orphaned) else jobs[n];
    }

    /** Deletes the jobs of a PrePullImage one by one and gives up at the first error. What is left is what
        kept names; nothing is left when no call fails. */
    method CleanupJobs(ppiName: string, listFails: bool, undeletable: set<string>) returns (ok: bool, ghost kept: set<string>)
      modifies this`jobs
      ensures Store() == old(Store()).Cleanup(ppiName, kept)
      ensures kept <= old(Store()).Labelled(ppiName)
      ensures ok ==> kept == {}
      ensures !ok <==> listFails || undeletable * old(Store()).Labelled(ppiName) != {}
    {
      ghost var all := Store().Labelled(ppiName);
      kept := all;
      assert Store() == Store().Cleanup(ppiName, kept);
      if listFails {
        return false, kept;
      }
      var names := ListJobs(ppiName);
      var i := 0;
      while i < |names|
        invariant i <= |names| && pulled == old(pulled)
        invariant kept == set n | n in names[i..]
        invariant Store() == old(Store()).Cleanup(ppiName, kept)
        invariant kept <= all
        invariant forall j :: 0 <= j < i ==> names[j] !in undeletable
      {
        assert names[i] in kept;
        var deleted := DeleteJob(names[i], names[i] in undeletable);
        if !deleted {
          assert names[i] in undeletable * all;
          return false, kept;
        }
        assert names[i..] == [names[i]] + names[i + 1..];
        kept := kept - {names[i]};
        i := i + 1;
      }
      assert forall n :: n in all ==> n in names;
      return true, kept;
    }

    /** An object with a finalizer is only marked for deletion. */
    method DeletePpi(key: Key, fails: bool) returns (ok: bool)
      modifies this`ppis
      ensures ok == !fails
      ensures ppis == if fails then old(ppis) else Delete(old(ppis), key)
    {
      if fails {
        return false;
      }
      if key in ppis {
        if ppis[key].finalizer {
          ppis := ppis[key := ppis[key].(deleting := true)];
        } else {
          ppis := ppis - {key};
        }
      }
      return true;
    }

    method CreatePpi(key: Key, p: PrePullImage, fails: bool) returns (ok: bool)
      modifies this`ppis
      ensures ok == (!fails && key !in old(ppis))
      ensures ppis == if ok then old(ppis)[key := p] else old(ppis)
    {
      if fails || key in ppis {
        return false;
      }
      ppis := ppis[key := p];
      return true;
    }

    /** Removing the last finalizer of an object that is being deleted removes the object. */
    method RemoveFinalizer(key: Key, fails: bool) returns (ok: bool)
      modifies this`ppis
      ensures ok == !fails
      ensures ppis == if fails then old(ppis) else old(ppis) - {key}
    {
      if fails {
        return false;
      }
      ppis := ppis - {key};
      return true;
    }

    method UpdatePpi(key: Key, p: PrePullImage, fails: bool) returns (ok: bool)
      modifies this`ppis
      ensures ok == !fails
      ensures ppis == if fails then old(ppis) else old(ppis)[key := p]
    {
      if fails {
        return false;
      }
      ppis := ppis[key := p];
      return true;
    }
  }

  /** The copy of a PrePullImage that a reconcile reads and changes before writing it back. */
  class PpiCopy {
    const key: Key
    const image: string
    const names: seq<string>
    const maxAttempts: int
    var finalizer: bool
    var deleting: bool
    var phase: Phase
    var nodeStatus: seq<NodeStatus>
    var summary: Summary
    var completionTime: Option<int>
    var moves: int

    constructor (key: Key, p: PrePullImage)
      ensures this.key == key && Value() == p
    {
      this.key := key;
      image, names, maxAttempts := p.image, p.names, p.maxAttempts;
      finalizer, deleting, phase, nodeStatus := p.finalizer, p.deleting, p.phase, p.nodeStatus;
      summary, completionTime, moves := p.summary, p.completionTime, p.moves;
    }

    function Value(): PrePullImage
      reads this
    {
      PrePullImage(image, names, maxAttempts, finalizer, deleting, phase, nodeStatus, summary, completionTime, moves)
    }
  }

  class PrePullImageReconciler {
    const jobName: Namer
    const api: ApiServer
    const rateLimiter: RateLimiter
    var activePulls: int
    var pullsSucceeded: int
    var pullsFailed: int
    var claimed: set<string>  // history: jobs bound to their entries in the pass under way
    ghost var past: History

    constructor (jobName: Namer, api: ApiServer, maxConcurrentPulls: int, maxPullsPerNode: int)
      ensures this.jobName == jobName && this.api == api && fresh(rateLimiter)
      ensures rateLimiter.Value() == NewLimiter(maxConcurrentPulls, maxPullsPerNode)
      ensures activePulls == pullsSucceeded == pullsFailed == 0
      ensures past == Start(maxConcurrentPulls, maxPullsPerNode).past
    {
      this.jobName, this.api := jobName, api;
      rateLimiter := new RateLimiter(maxConcurrentPulls, maxPullsPerNode);
      activePulls, pullsSucceeded, pullsFailed := 0, 0, 0;
      claimed := {};
      past := Start(maxConcurrentPulls, maxPullsPerNode).past;
    }

    ghost function Meters(): Metrics
      reads this
    {
      Metrics(activePulls, pullsSucceeded, pullsFailed)
    }

    /** The state of the whole system as the modules on runs see it. */
    ghost function TheWorld(): World
      reads this, api, rateLimiter
    {
      World(rateLimiter.Value(), api.ppis, api.Store(), Meters(), past)
    }

    method StartPullJob(ppi: PpiCopy, i: nat, answer: CreateAnswer) returns (ok: bool)
      requires i < |ppi.nodeStatus|
      modifies ppi`nodeStatus, api`jobs, this`claimed
      ensures ok == answer.Accepted?
      ensures var e, store := old(ppi.nodeStatus)[i], old(api.Store());
              var name := jobName(ppi.key.name, e.node);
              var put := store.Put(name, JobFor(ppi.key, old(ppi.Value()), e, i, answer));
              && api.Store() == (if answer.Refused? then store else if ok then put.Rebind(name, ppi.key, i) else put)
              && ppi.nodeStatus == (if ok then old(ppi.nodeStatus)[i := EntryAfter(e, Started, name, store.Found(name))]
                                    else old(ppi.nodeStatus))
              && claimed == old(claimed) + (if ok then Claims(jobName, ppi.key, store, e, i, Started) else {})
    {
      var e := ppi.nodeStatus[i];
      var name := jobName(ppi.key.name, e.node);
      var found := if name in api.jobs then Some(api.jobs[name]) else None;
      var tie := if answer.Accepted? then Bound else Loose;
      var err := api.CreateJob(name, Job(ppi.key, ppi.image, e.node, 0, 0, 0, i, tie), answer);
      if err.OtherError? {
        return false;
      }
      if found.None? || (found.value.tie.Loose? && found.value.owner == ppi.key && found.value.index == i) {
        claimed := claimed + {name};
      }
      api.Rebind(name, ppi.key, i);
      ppi.nodeStatus := ppi.nodeStatus[i := e.(jobName := name, status := Pulling, starts := e.starts + 1, found := found)];
      return true;
    }

    method CheckJobStatus(ppi: PpiCopy, i: nat, getFails: bool) returns (status: JobStatus, ok: bool)
      requires i < |ppi.nodeStatus|
      ensures ok == !getFails
      ensures ok ==> status == StatusOf(api.Store(), ppi.nodeStatus[i].jobName)
      ensures ok ==>
                var name := ppi.nodeStatus[i].jobName;
                && (status.JobSucceeded? <==> name in api.jobs && api.jobs[name].succeeded >= 1)
                && (status.JobFailed? <==> (name in api.jobs ==> api.jobs[name].succeeded == 0 && api.jobs[name].failed >= 1))
    {
      if getFails {
        return JobPending, false;
      }
      var name := ppi.nodeStatus[i].jobName;
      if name !in api.jobs {
        return JobFailed, true;
      }
      return GetJobStatus(Some(api.jobs[name])), true;
    }

    /** The branch of the loop for a Pending entry: take a slot, create the job, give the slot back if that
        fails. */
    method TryStart(ppi: PpiCopy, i: nat, weather: Weather, ghost p: PrePullImage) returns (started: bool)
      requires rateLimiter.Value().Valid()
      requires i < |ppi.nodeStatus| && ppi.nodeStatus[i].status.Pending?
      requires p.image == ppi.image && p.maxAttempts == ppi.maxAttempts
      modifies rateLimiter, ppi`nodeStatus, api`jobs, this`activePulls, this`claimed
      ensures rateLimiter.Value().Valid()
      ensures var e, l, store := old(ppi.nodeStatus)[i], old(rateLimiter.Value()), old(api.Store());
              var v := Judge(p, l, store, e, weather);
              var name := jobName(ppi.key.name, e.node);
              && started == v.Started?
              && claimed == old(claimed) + Claims(jobName, ppi.key, store, e, i, v)
              && rateLimiter.Value() == LimiterAfter(l, v, e.node)
              && api.Store() == StoreAfter(jobName, ppi.key, p, l, store, e, i, v, weather)
              && ppi.nodeStatus == old(ppi.nodeStatus)[i := EntryAfter(e, v, name, store.Found(name))]
              && Meters() == MetricsAfter(old(Meters()), v)
    {
      var node := ppi.nodeStatus[i].node;
      var acquired := rateLimiter.TryAcquire(node);
      if !acquired {
        return false;
      }
      started := StartPullJob(ppi, i, weather.create);
      if !started {
        ReleaseUndoesAcquire(old(rateLimiter.Value()), node);
        rateLimiter.Release(node);
      } else {
        activePulls := activePulls + 1;
      }
    }

    /** The branch of the loop for a Pulling entry. */
    method CheckPull(ppi: PpiCopy, i: nat, weather: Weather, ghost p: PrePullImage) returns (verdict: Verdict)
      requires rateLimiter.Value().Valid()
      requires i < |ppi.nodeStatus| && ppi.nodeStatus[i].status.Pulling?
      requires p.image == ppi.image && p.maxAttempts == ppi.maxAttempts
      modifies rateLimiter, ppi`nodeStatus, api`jobs, this`activePulls, this`pullsSucceeded, this`pullsFailed
      ensures rateLimiter.Value().Valid()
      ensures var e, l, store := old(ppi.nodeStatus)[i], old(rateLimiter.Value()), old(api.Store());
              var name := jobName(ppi.key.name, e.node);
              && verdict == Judge(p, l, store, e, weather)
              && rateLimiter.Value() == LimiterAfter(l, verdict, e.node)
              && api.Store() == StoreAfter(jobName, ppi.key, p, l, store, e, i, verdict, weather)
              && ppi.nodeStatus == old(ppi.nodeStatus)[i := EntryAfter(e, verdict, name, store.Found(name))]
              && Meters() == MetricsAfter(old(Meters()), verdict)
    {
      var e := ppi.nodeStatus[i];
      var status, ok := CheckJobStatus(ppi, i, weather.getFails);
      if !ok {
        return StillPulling;
      }
      match status {
        case JobSucceeded =>
          ppi.nodeStatus := ppi.nodeStatus[i := e.(status := Completed)];
          rateLimiter.Release(e.node);
          activePulls := activePulls - 1;
          pullsSucceeded := pullsSucceeded + 1;
          return Succeeded;
        case JobFailed =>
          if e.retryCount < ppi.maxAttempts {
            ppi.nodeStatus := ppi.nodeStatus[i := e.(retryCount := e.retryCount + 1, status := Pending)];
            var deleted := api.DeleteJob(e.jobName, weather.deleteFails);
            if weather.deleteFails {
              api.Spend(e.jobName);
            }
            rateLimiter.Release(e.node);
            activePulls := activePulls - 1;
            return Retried;
          }
          ppi.nodeStatus := ppi.nodeStatus[i := e.(status := Failed)];
          rateLimiter.Release(e.node);
          activePulls := activePulls - 1;
          pullsFailed := pullsFailed + 1;
          return Exhausted;
        case _ => return StillPulling;
      }
    }

    /** What the loop of HandleInProgress holds after its first n entries is the state After(n). */
    ghost predicate Reached(ppi: PpiCopy, s: State, pending: int, pulling: int, completed: int, failed: int, requeue: bool)
      reads this, api, rateLimiter, ppi
    {
      && rateLimiter.Value() == s.limiter && api.Store() == s.store && Meters() == s.metrics
      && ppi.nodeStatus == s.entries
      && pending == s.pending && pulling == s.pulling && completed == s.completed && failed == s.failed
      && requeue == s.needsRequeue && claimed == s.claimed
    }

    /** The loop of HandleInProgress, with its four counters. */
    method RunPass(ppi: PpiCopy, env: Env)
      returns (pending: int, pulling: int, completed: int, failed: int, needsRequeue: bool)
      requires rateLimiter.Value().Valid()
      requires ppi.key in api.ppis && ppi.Value() == api.ppis[ppi.key]
      modifies this, api, rateLimiter, ppi
      ensures rateLimiter.Value().Valid()
      ensures Reached(ppi, PassOver(jobName, old(TheWorld()), ppi.key, env), pending, pulling, completed, failed, needsRequeue)
      ensures api.ppis == old(api.ppis) && past == old(past)
      ensures ppi.Value() == old(ppi.Value()).(nodeStatus := ppi.nodeStatus)
    {
      hide Handle;
      ghost var w, p := TheWorld(), ppi.Value();
      ghost var s0 := Begin(w.limiter, w.store, w.metrics, p.nodeStatus);
      pending, pulling, completed, failed, needsRequeue := 0, 0, 0, 0, false;
      claimed := {};
      var i := 0;
      while i < |ppi.nodeStatus|
        invariant i <= |p.nodeStatus| == |ppi.nodeStatus|
        invariant rateLimiter.Value().Valid()
        invariant Reached(ppi, After(jobName, ppi.key, p, s0, env.weather, i), pending, pulling, completed, failed, needsRequeue)
        invariant api.ppis == w.ppis && past == w.past && ppi.Value() == p.(nodeStatus := ppi.nodeStatus)
      {
        ghost var s := After(jobName, ppi.key, p, s0, env.weather, i);
        var weather := At(env.weather, i);
        HandleCountsBy(jobName, ppi.key, p, s, i, weather);
        var status, requeue := HandleEntry(ppi, i, weather, p, s);
        match status {
          case Pending => pending := pending + 1;
          case Pulling => pulling := pulling + 1;
          case Completed => completed := completed + 1;
          case Failed => failed := failed + 1;
        }
        needsRequeue := needsRequeue || requeue;
        i := i + 1;
      }
    }

    /** One turn of that loop: what happens to entry i, the status it is counted under, and whether it asks
        for a requeue. */
    method HandleEntry(ppi: PpiCopy, i: nat, weather: Weather, ghost p: PrePullImage, ghost s: State)
      returns (status: Status, requeue: bool)
      requires rateLimiter.Value().Valid() && i < |ppi.nodeStatus|
      requires rateLimiter.Value() == s.limiter && api.Store() == s.store && Meters() == s.metrics && ppi.nodeStatus == s.entries
      requires p.image == ppi.image && p.maxAttempts == ppi.maxAttempts && claimed == s.claimed
      modifies rateLimiter, ppi`nodeStatus, api, this`activePulls, this`pullsSucceeded, this`pullsFailed, this`claimed
      ensures rateLimiter.Value().Valid() && api.ppis == old(api.ppis)
      ensures var t := Handle(jobName, ppi.key, p, s, i, weather);
              && rateLimiter.Value() == t.limiter && api.Store() == t.store && Meters() == t.metrics
              && ppi.nodeStatus == t.entries && claimed == t.claimed
              && status == t.entries[i].status
              && t.needsRequeue == (s.needsRequeue || requeue)
    {
      hide StoreAfter;
      hide LimiterAfter;
      hide MetricsAfter;
      hide DriftedAll;
      HandleByParts(jobName, ppi.key, p, s, i, weather);
      hide Handle;
      api.JobsDrift(weather.drift);
      match ppi.nodeStatus[i].status {
        case Pending =>
          var started := TryStart(ppi, i, weather, p);
          return if started then Pulling else Pending, !started;
        case Pulling =>
          var verdict := CheckPull(ppi, i, weather, p);
          return ppi.nodeStatus[i].status, verdict.StillPulling? || verdict.Retried?;
        case Completed => return Completed, false;
        case Failed => return Failed, false;
      }
    }

    /** Summary and phase, from the counters. */
    method Summarise(ppi: PpiCopy, now: int, pending: int, pulling: int, completed: int, failed: int,
                     ghost p: PrePullImage, ghost s: State)
      requires |s.entries| == |p.nodeStatus| && ppi.Value() == p.(nodeStatus := s.entries)
      requires ppi.key in api.ppis && api.ppis[ppi.key] == p
      requires pending == s.pending && pulling == s.pulling && completed == s.completed && failed == s.failed
      modifies ppi
      ensures ppi.Value() == Concluded(p, s, now)
      ensures pending == pulling == 0 ==> ppi.completionTime == Some(now) && (ppi.phase.PhaseFailed? <==> failed > 0)
      ensures !(pending == pulling == 0) ==> ppi.completionTime == p.completionTime && ppi.phase == p.phase
    {
      ppi.moves := ppi.moves + Bit(StatusChanged(api.ppis[ppi.key].nodeStatus, ppi.nodeStatus));
      ppi.summary := Summary(|ppi.nodeStatus|, pending, pulling, completed, failed);
      if pending == 0 && pulling == 0 {
        ppi.completionTime := Some(now);
        if failed > 0 {
          ppi.phase := PhaseFailed;
        } else {
          ppi.phase := PhaseCompleted;
        }
      }
    }

    method HandleInProgress(ppi: PpiCopy, env: Env) returns (outcome: Outcome)
      requires rateLimiter.Value().Valid()
      requires ppi.key in api.ppis && ppi.Value() == api.ppis[ppi.key]
      modifies this, api, rateLimiter, ppi
      ensures rateLimiter.Value().Valid()
      ensures var r := System.HandleInProgress(jobName, old(TheWorld()), ppi.key, env);
              TheWorld() == r.world && outcome == r.outcome
    {
      hide PassOver;
      ghost var w, p := TheWorld(), ppi.Value();
      var pending, pulling, completed, failed, needsRequeue := RunPass(ppi, env);
      ghost var s := PassOver(jobName, w, ppi.key, env);
      Summarise(ppi, env.now, pending, pulling, completed, failed, p, s);
      var written := api.UpdatePpi(ppi.key, ppi.Value(), env.writeFails);
      if !written {
        api.Loosen(claimed, ppi.key);
        past := Lost(past, p, s);
        return Error;
      }
      past := Noted(past, s);
      if needsRequeue {
        return RequeueAfter(DEFAULT_REQUEUE_DELAY);
      }
      return Stop;
    }

    /** Gives back the slot of every Pulling entry. */
    method ReleasePulls(ppi: PpiCopy)
      requires rateLimiter.Value().Valid()
      modifies rateLimiter, this`activePulls
      ensures rateLimiter.Value().Valid()
      ensures rateLimiter.Value() == ReleaseAll(old(rateLimiter.Value()), ppi.nodeStatus)
      ensures activePulls == old(activePulls) - Tally(ppi.nodeStatus, InStatus(Pulling))
    {
      ghost var es := ppi.nodeStatus;
      var i := 0;
      while i < |ppi.nodeStatus|
        invariant i <= |es| && ppi.nodeStatus == es && rateLimiter.Value().Valid()
        invariant rateLimiter.Value() == ReleaseAll(old(rateLimiter.Value()), es[..i])
        invariant activePulls == old(activePulls) - Tally(es[..i], InStatus(Pulling))
      {
        assert es[..i + 1][..i] == es[..i];
        if ppi.nodeStatus[i].status.Pulling? {
          rateLimiter.Release(ppi.nodeStatus[i].node);
          activePulls := activePulls - 1;
        }
        i := i + 1;
      }
      assert es[..|es|] == es;
    }

    /** The part of Reconcile for an object that is being deleted. Which jobs a failing cleanup leaves is
        only known afterwards. */
    method HandleDeletion(ppi: PpiCopy, env: Env, listFails: bool, undeletable: set<string>)
      returns (outcome: Outcome, ghost kept: set<string>)
      requires rateLimiter.Value().Valid()
      requires ppi.key in api.ppis && ppi.Value() == api.ppis[ppi.key]
      modifies this, api, rateLimiter, ppi
      ensures rateLimiter.Value().Valid()
      ensures !listFails && undeletable == {} ==> kept == {}
      ensures var r := System.HandleDeletion(old(TheWorld()), ppi.key, env.(kept := kept));
              TheWorld() == r.world && outcome == r.outcome
    {
      kept := {};
      if !ppi.finalizer {
        return Stop, kept;
      }
      hide Tally;
      hide ReleaseAll;
      hide PullingNodes;
      hide JobStore.Cleanup;
      ghost var w, es := TheWorld(), ppi.nodeStatus;
      ReleasePulls(ppi);
      var cleaned: bool;
      cleaned, kept := api.CleanupJobs(ppi.key.name, listFails, undeletable);
      past := past.(dropped := past.dropped + Tally(es, InStatus(Pulling)));
      ppi.finalizer := false;
      var removed := api.RemoveFinalizer(ppi.key, env.writeFails);
      if !removed {
        past := past.(lostStops := past.lostStops + PullingNodes(es));
        return Error, kept;
      }
      past := past.(retiredRetries := past.retiredRetries + Tally(es, Retries),
                    left := past.left + StillRunning(api.Store(), ppi.key));
      api.Orphan(ppi.key);
      return Stop, kept;
    }

    method HandlePending(ppi: PpiCopy, env: Env) returns (outcome: Outcome)
      requires ppi.key in api.ppis && ppi.Value() == api.ppis[ppi.key]
      modifies api`ppis, ppi
      ensures var r := System.HandlePending(old(TheWorld()), ppi.key, env);
              TheWorld() == r.world && outcome == r.outcome
      ensures outcome.Requeue? ==>
                && (ppi.names == [] ==> env.listed.Some?)
                && var es, nodes := api.ppis[ppi.key].nodeStatus, if ppi.names == [] then env.listed.value else ppi.names;
                   |es| == |nodes| && forall i :: 0 <= i < |es| ==> es[i] == NodeStatus(nodes[i], Pending, 0, "", 0, None)
    {
      var targets := if ppi.names != [] then Some(ppi.names) else env.listed;
      if targets.None? {
        return Error;
      }
      var nodes := targets.value;
      if |nodes| == 0 {
        ppi.phase := PhaseCompleted;
        var written := api.UpdatePpi(ppi.key, ppi.Value(), env.writeFails);
        return if written then Stop else Error;
      }
      var entries := [];
      var i := 0;
      while i < |nodes|
        invariant i <= |nodes| && entries == Initial(nodes)[..i]
      {
        entries := entries + [NodeStatus(nodes[i], Pending, 0, "", 0, None)];
        i := i + 1;
      }
      assert entries == Initial(nodes);
      ppi.nodeStatus := entries;
      ppi.summary := Summary(|nodes|, |nodes|, 0, 0, 0);
      ppi.phase := InProgress;
      assert ppi.Value() == Initialised(old(ppi.Value()), nodes);
      var written := api.UpdatePpi(ppi.key, ppi.Value(), env.writeFails);
      return if written then Requeue else Error;
    }

    method HandleCompleted(ppi: PpiCopy, env: Env) returns (outcome: Outcome)
      requires ppi.key in api.ppis && ppi.Value() == api.ppis[ppi.key]
      modifies api`ppis
      ensures var r := System.HandleCompleted(old(TheWorld()), ppi.key, env);
              TheWorld() == r.world && outcome == r.outcome
    {
      if ppi.completionTime.Some? {
        var age := env.now - ppi.completionTime.value;
        if age > COMPLETED_TTL {
          var deleted := api.DeletePpi(ppi.key, env.writeFails);
          return if deleted then Stop else Error;
        }
        return RequeueAfter(COMPLETED_TTL - age);
      }
      return RequeueAfter(COMPLETED_TTL);
    }

    /** The entry point. It refines the transition that the theorems about runs are about. */
    method Reconcile(key: Key, env: Env, listFails: bool, undeletable: set<string>)
      returns (outcome: Outcome, ghost kept: set<string>)
      requires rateLimiter.Value().Valid()
      modifies this, api, rateLimiter
      ensures rateLimiter.Value().Valid()
      ensures !listFails && undeletable == {} ==> kept == {}
      ensures var r := System.Reconcile(jobName, old(TheWorld()), key, env.(kept := kept));
              TheWorld() == r.world && outcome == r.outcome
    {
      kept := {};
      if env.getFails {
        return Error, kept;
      }
      if key !in api.ppis {
        return Stop, kept;
      }
      var ppi := new PpiCopy(key, api.ppis[key]);
      if ppi.deleting {
        outcome, kept := HandleDeletion(ppi, env, listFails, undeletable);
        return outcome, kept;
      }
      if !ppi.finalizer {
        ppi.finalizer := true;
        var written := api.UpdatePpi(key, ppi.Value(), env.writeFails);
        return if written then Requeue else Error, kept;
      }
      match ppi.phase {
        case Unset => outcome := HandlePending(ppi, env);
        case PhasePending => outcome := HandlePending(ppi, env);
        case InProgress =>
          outcome := HandleInProgress(ppi, env);
          KeptIsForDeletions(jobName, old(TheWorld()), key, env, kept);
        case PhaseCompleted => outcome := HandleCompleted(ppi, env);
        case PhaseFailed => outcome := HandleCompleted(ppi, env);
      }
      return outcome, kept;
    }
  }

  /** Handle, field by field. */
  lemma HandleByParts(nm: Namer, key: Key, p: PrePullImage, s: State, i: nat, w: Weather)
    requires i < |s.entries|
    ensures var t, e, store := Handle(nm, key, p, s, i, w), s.entries[i], DriftedAll(s.store, w.drift);
            var v := Judge(p, s.limiter, store, e, w);
            && t.limiter == LimiterAfter(s.limiter, v, e.node)
            && t.store == StoreAfter(nm, key, p, s.limiter, store, e, i, v, w)
            && t.metrics == MetricsAfter(s.metrics, v)
            && t.entries == s.entries[i := EntryAfter(e, v, nm(key.name, e.node), store.Found(nm(key.name, e.node)))]
            && t.claimed == s.claimed + Claims(nm, key, store, e, i, v)
            && (t.needsRequeue <==> s.needsRequeue || v.Deferred? || v.StillPulling? || v.Retried?)
            && (Terminal(e.status) ==>
                  t.limiter == s.limiter && t.store == store && t.metrics == s.metrics && t.entries == s.entries
                  && t.claimed == s.claimed)
  {
  }

  /** Each entry is counted once, under the status it ends up with. */
  lemma HandleCountsBy(nm: Namer, key: Key, p: PrePullImage, s: State, i: nat, w: Weather)
    requires i < |s.entries|
    ensures var t := Handle(nm, key, p, s, i, w);
            && |t.entries| == |s.entries|
            && t.pending == s.pending + Bit(t.entries[i].status.Pending?)
            && t.pulling == s.pulling + Bit(t.entries[i].status.Pulling?)
            && t.completed == s.completed + Bit(t.entries[i].status.Completed?)
            && t.failed == s.failed + Bit(t.entries[i].status.Failed?)
  {
  }

  lemma KeptIsForDeletions(nm: Namer, w: World, key: Key, env: Env, kept: set<string>)
    requires key in w.ppis
    ensures System.HandleInProgress(nm, w, key, env.(kept := kept)) == System.HandleInProgress(nm, w, key, env)
  {
  }
}
