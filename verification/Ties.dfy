/** Which ties jobs can have, given what fails: every tie but Bound comes from one kind of failure. */
module Ties {
  import opened Cluster
  import opened Pass
  import opened System
  import opened Lifecycle
  import opened Ledger
  import opened Jobs

  predicate TiesIn(store: JobStore, ties: set<Tie>) {
    forall n :: n in store.jobs ==> store.jobs[n].tie in ties
  }

  /** The job that an entry's last start found. */
  predicate FoundIn(e: NodeStatus, ties: set<Tie>) {
    e.found.Some? ==> e.found.value.tie in ties
  }

  predicate AllFoundIn(ppis: map<Key, PrePullImage>, ties: set<Tie>) {
    forall k, i :: k in ppis && 0 <= i < |ppis[k].nodeStatus| ==> FoundIn(ppis[k].nodeStatus[i], ties)
  }

  /** What may fail while one entry is handled: a creation that reports an error after it worked makes a loose job,
      a failed deletion a spent one. */
  predicate WeatherKeeps(w: Weather, ties: set<Tie>) {
    (Loose in ties || !w.create.TimedOut?) && (Spent in ties || !w.deleteFails)
  }

  /** A lost write makes loose jobs, a failed cleanup orphaned ones. */
  predicate EnvKeeps(env: Env, ties: set<Tie>) {
    && (Loose in ties || !env.writeFails)
    && (Orphaned in ties || env.kept == {})
    && (forall i :: 0 <= i < |env.weather| ==> WeatherKeeps(env.weather[i], ties))
  }

  predicate StepKeeps(step: Step, ties: set<Tie>) {
    match step
    case Visit(_, env) => EnvKeeps(env, ties)
    case Crash(_, env) => Loose in ties && EnvKeeps(env, ties)
    case _ => true
  }

  lemma HandleKeepsTies(nm: Namer, key: Key, p: PrePullImage, s: State, i: nat, w: Weather, ties: set<Tie>)
    requires i < |s.entries| && Bound in ties && WeatherKeeps(w, ties)
    requires TiesIn(s.store, ties) && FoundIn(s.entries[i], ties)
    ensures var t := Handle(nm, key, p, s, i, w); TiesIn(t.store, ties) && FoundIn(t.entries[i], ties)
  {
    DriftIsDrift(s.store, w.drift);
    hide DriftedAll;
  }

  lemma {:induction false} PassKeepsTies(nm: Namer, key: Key, p: PrePullImage, s0: State, weather: seq<Weather>, n: nat,
                                         ties: set<Tie>)
    requires n <= |s0.entries| && Bound in ties && TiesIn(s0.store, ties)
    requires forall i :: 0 <= i < |weather| ==> WeatherKeeps(weather[i], ties)
    requires forall i :: 0 <= i < |s0.entries| ==> FoundIn(s0.entries[i], ties)
    ensures var t := After(nm, key, p, s0, weather, n);
            TiesIn(t.store, ties) && forall i :: 0 <= i < |t.entries| ==> FoundIn(t.entries[i], ties)
    decreases n
  {
    hide Handle;
    if n > 0 {
      PassKeepsTies(nm, key, p, s0, weather, n - 1, ties);
      var s := After(nm, key, p, s0, weather, n - 1);
      HandleKeepsTies(nm, key, p, s, n - 1, At(weather, n - 1), ties);
      HandleMoves(nm, key, p, s, n - 1, At(weather, n - 1));
    }
  }

  lemma ReconcileKeepsTies(nm: Namer, w: World, key: Key, env: Env, ties: set<Tie>)
    requires OkAt(nm, w, key) && Bound in ties && EnvKeeps(env, ties) && TiesIn(w.store, ties) && AllFoundIn(w.ppis, ties)
    ensures var v := Reconcile(nm, w, key, env).world; TiesIn(v.store, ties) && AllFoundIn(v.ppis, ties)
  {
    hide After;
    hide Tally;
    hide ReleaseAll;
    hide PullingNodes;
    if key in w.ppis && !env.getFails {
      var p := w.ppis[key];
      if p.deleting {
      } else if p.finalizer && p.phase.InProgress? {
        PassKeepsTies(nm, key, p, Begin(w.limiter, w.store, w.metrics, p.nodeStatus), env.weather, |p.nodeStatus|, ties);
      } else {
        QuietWrites(nm, w, key, env);
        hide Reconcile;
      }
    }
  }

  lemma StepKeepsTies(nm: Namer, w: World, step: Step, ties: set<Tie>)
    requires StepOk(nm, w, step) && Bound in ties && StepKeeps(step, ties) && TiesIn(w.store, ties) && AllFoundIn(w.ppis, ties)
    ensures var v := Apply(nm, w, step); TiesIn(v.store, ties) && AllFoundIn(v.ppis, ties)
  {
    hide Reconcile;
    match step
    case Visit(k, env) => ReconcileKeepsTies(nm, w, k, env, ties);
    case Crash(k, env) => ReconcileKeepsTies(nm, w, k, env.(writeFails := true), ties);
    case Outside(d) => DriftedIsDrift(w.store, d);
    case _ =>
  }

  lemma {:induction false} RunsKeepTies(nm: Namer, maxPulls: int, maxPerNode: int, steps: seq<Step>, ties: set<Tie>)
    requires Bound in ties && forall i :: 0 <= i < |steps| ==> StepKeeps(steps[i], ties)
    ensures var w := Run(nm, Start(maxPulls, maxPerNode), steps); TiesIn(w.store, ties) && AllFoundIn(w.ppis, ties)
  {
    if steps != [] {
      var before := steps[..|steps| - 1];
      RunsKeepTies(nm, maxPulls, maxPerNode, before, ties);
      RunsKeepAllOk(nm, maxPulls, maxPerNode, before);
      AllOkSteps(nm, Run(nm, Start(maxPulls, maxPerNode), before), steps[|steps| - 1]);
      StepKeepsTies(nm, Run(nm, Start(maxPulls, maxPerNode), before), steps[|steps| - 1], ties);
    }
  }
}
