/** The whole operator as a transition system: any number of PrePullImages, one shared limiter, the job
    store, and an outside world whose every answer is an input of the step. */
module System {
  import opened RateLimiting
  import opened Cluster
  import opened Pass

  const DEFAULT_REQUEUE_DELAY := 5_000_000_000      // nanoseconds
  const COMPLETED_TTL := 3_600_000_000_000          // nanoseconds

  /** What is remembered of the past, in order to state properties of runs about one state. */
  datatype History = History(
    restarts: nat,
    baseline: int,                 // Pulling entries, less lost stops, at the last restart
    lostStarts: multiset<string>,  // nodes of starts whose record was lost since the last restart
    lostStops: multiset<string>,   // nodes of stops whose record was lost
    lostRetries: int,              // retries whose record was lost
    started: int,                  // pulls started
    dropped: int,                  // pulls given up by a finalizer
    retiredRetries: int,           // retry counts of PrePullImages that are gone
    unrecorded: nat,               // starts whose record was lost, over all restarts
    succeeded: int,                // successes and failures counted by earlier processes
    failed: int,
    crashed: multiset<string>,     // nodes of stops whose record was lost because the process died
    phantoms: multiset<string>,    // nodes of jobs made by a creation that reported an error
    left: set<(string, string)>    // jobs that a failed cleanup left running, with their nodes
  )

  datatype World = World(
    limiter: Limiter,
    ppis: map<Key, PrePullImage>,
    store: JobStore,
    metrics: Metrics,
    past: History
  )

  /** The outside world during one reconcile. kept holds the jobs a failing cleanup leaves behind; listed is
      the answer to the node list. */
  datatype Env = Env(
    getFails: bool,
    now: int,
    listed: Option<seq<string>>,
    weather: seq<Weather>,
    writeFails: bool,
    kept: set<string>
  )

  datatype Outcome = Error | Stop | Requeue | RequeueAfter(delay: int)

  datatype Reply = Reply(world: World, outcome: Outcome)

  // ---------------------------------------------------------------------------------------------
  // The API server's side of deletion
  // ---------------------------------------------------------------------------------------------

  /** An object with a finalizer is only marked; without one it is gone at once. */
  function Delete(ppis: map<Key, PrePullImage>, key: Key): map<Key, PrePullImage> {
    if key !in ppis then ppis
    else if ppis[key].finalizer then ppis[key := ppis[key].(deleting := true)]
    else ppis - {key}
  }

  // ---------------------------------------------------------------------------------------------
  // The handlers
  // ---------------------------------------------------------------------------------------------

  function PullingNodes(es: seq<NodeStatus>): multiset<string> {
    if es == [] then multiset{}
    else PullingNodes(es[..|es| - 1]) + if es[|es| - 1].status.Pulling? then multiset{es[|es| - 1].node} else multiset{}
  }

  /** The limiter after the slots of all Pulling entries have been given back, first entry first. */
  function ReleaseAll(l: Limiter, es: seq<NodeStatus>): Limiter {
    if es == [] then l
    else
      var before := ReleaseAll(l, es[..|es| - 1]);
      if es[|es| - 1].status.Pulling? then before.Release(es[|es| - 1].node) else before
  }

  /** The jobs of a PrePullImage that are still running. */
  function StillRunning(store: JobStore, key: Key): set<(string, string)> {
    set n | n in store.jobs && store.jobs[n].owner == key && Unfinished(store.jobs[n]) :: (n, store.jobs[n].node)
  }

  function HandleDeletion(w: World, key: Key, env: Env): Reply
    requires key in w.ppis
  {
    var p := w.ppis[key];
    if !p.finalizer then Reply(w, Stop)
    else
      var pulling := Tally(p.nodeStatus, InStatus(Pulling));
      var store := w.store.Cleanup(key.name, env.kept);
      var v := w.(limiter := ReleaseAll(w.limiter, p.nodeStatus), store := store,
                  metrics := w.metrics.(active := w.metrics.active - pulling),
                  past := w.past.(dropped := w.past.dropped + pulling));
      if env.writeFails then
        Reply(v.(past := v.past.(lostStops := v.past.lostStops + PullingNodes(p.nodeStatus))), Error)
      else
        Reply(v.(ppis := w.ppis - {key}, store := store.Orphan(key),
                 past := v.past.(retiredRetries := v.past.retiredRetries + Tally(p.nodeStatus, Retries),
                                 left := v.past.left + StillRunning(store, key))),
              Stop)
  }

  function Initial(nodes: seq<string>): seq<NodeStatus> {
    seq(|nodes|, i requires 0 <= i < |nodes| => NodeStatus(nodes[i], Pending, 0, "", 0, None))
  }

  /** What handlePending writes, given the target nodes. */
  function Initialised(p: PrePullImage, nodes: seq<string>): PrePullImage {
    if nodes == [] then p.(phase := PhaseCompleted)
    else p.(nodeStatus := Initial(nodes),
            summary := Summary(|nodes|, |nodes|, 0, 0, 0),
            phase := InProgress)
  }

  function Targets(p: PrePullImage, env: Env): Option<seq<string>> {
    if p.names != [] then Some(p.names) else env.listed
  }

  function HandlePending(w: World, key: Key, env: Env): Reply
    requires key in w.ppis
  {
    match Targets(w.ppis[key], env)
    case None => Reply(w, Error)
    case Some(nodes) =>
      if env.writeFails then Reply(w, Error)
      else Reply(w.(ppis := w.ppis[key := Initialised(w.ppis[key], nodes)]), if nodes == [] then Stop else Requeue)
  }

  predicate StatusChanged(es: seq<NodeStatus>, fs: seq<NodeStatus>)
    requires |es| == |fs|
  {
    exists i :: 0 <= i < |es| && es[i].status != fs[i].status
  }

  /** What handleInProgress writes after the pass. */
  function Concluded(p: PrePullImage, s: State, now: int): PrePullImage
    requires |s.entries| == |p.nodeStatus|
  {
    var over := s.pending == 0 && s.pulling == 0;
    p.(nodeStatus := s.entries,
       summary := Summary(|s.entries|, s.pending, s.pulling, s.completed, s.failed),
       phase := if !over then p.phase else if s.failed > 0 then PhaseFailed else PhaseCompleted,
       completionTime := if over then Some(now) else p.completionTime,
       moves := p.moves + Bit(StatusChanged(p.nodeStatus, s.entries)))
  }

  function PassOver(nm: Namer, w: World, key: Key, env: Env): (s: State)
    requires key in w.ppis
    ensures |s.entries| == |w.ppis[key].nodeStatus|
  {
    FullPass(nm, key, w.ppis[key], Begin(w.limiter, w.store, w.metrics, w.ppis[key].nodeStatus), env.weather)
  }

  /** What a pass adds to the past, whether or not its result is written. */
  function Noted(past: History, s: State): History {
    past.(started := past.started + |s.starts|, phantoms := past.phantoms + s.phantoms)
  }

  /** What a pass over p adds when its result could not be written. */
  function Lost(past: History, p: PrePullImage, s: State): History {
    Noted(past, s).(lostStarts := past.lostStarts + s.starts, lostStops := past.lostStops + s.stops,
                    lostRetries := past.lostRetries + Tally(s.entries, Retries) - Tally(p.nodeStatus, Retries),
                    unrecorded := past.unrecorded + |s.starts|)
  }

  function HandleInProgress(nm: Namer, w: World, key: Key, env: Env): Reply
    requires key in w.ppis
  {
    var p := w.ppis[key];
    var s := PassOver(nm, w, key, env);
    var v := w.(limiter := s.limiter, store := s.store, metrics := s.metrics);
    if env.writeFails then Reply(v.(store := s.store.Loosen(s.claimed, key), past := Lost(w.past, p, s)), Error)
    else
      Reply(v.(ppis := w.ppis[key := Concluded(p, s, env.now)], past := Noted(w.past, s)),
            if s.needsRequeue then RequeueAfter(DEFAULT_REQUEUE_DELAY) else Stop)
  }

  function HandleCompleted(w: World, key: Key, env: Env): Reply
    requires key in w.ppis
  {
    match w.ppis[key].completionTime
    case None => Reply(w, RequeueAfter(COMPLETED_TTL))
    case Some(t) =>
      if env.now - t > COMPLETED_TTL then
        if env.writeFails then Reply(w, Error) else Reply(w.(ppis := Delete(w.ppis, key)), Stop)
      else Reply(w, RequeueAfter(COMPLETED_TTL - (env.now - t)))
  }

  function Reconcile(nm: Namer, w: World, key: Key, env: Env): Reply {
    if env.getFails then Reply(w, Error)
    else if key !in w.ppis then Reply(w, Stop)
    else
      var p := w.ppis[key];
      if p.deleting then HandleDeletion(w, key, env)
      else if !p.finalizer then
        if env.writeFails then Reply(w, Error)
        else Reply(w.(ppis := w.ppis[key := p.(finalizer := true)]), Requeue)
      else
        match p.phase
        case Unset => HandlePending(w, key, env)
        case PhasePending => HandlePending(w, key, env)
        case InProgress => HandleInProgress(nm, w, key, env)
        case PhaseCompleted => HandleCompleted(w, key, env)
        case PhaseFailed => HandleCompleted(w, key, env)
  }

  // ---------------------------------------------------------------------------------------------
  // Runs
  // ---------------------------------------------------------------------------------------------

  datatype Step =
    | Submit(key: Key, image: string, names: seq<string>, maxAttempts: int)
    | RequestDelete(key: Key)
    | Visit(key: Key, env: Env)       // one reconcile
    | Outside(drift: Drift)           // jobs progress or vanish between reconciles
    | Restart                         // the operator process is replaced
    | Crash(key: Key, env: Env)       // the process dies during a reconcile, before the write

  ghost function Restarted(w: World): World {
    w.(limiter := w.limiter.Fresh(),
       metrics := Metrics(0, 0, 0),
       past := w.past.(restarts := w.past.restarts + 1, lostStarts := multiset{},
                       baseline := Everywhere(w.ppis, Using(Whole)) - |w.past.lostStops|,
                       succeeded := w.past.succeeded + w.metrics.succeeded,
                       failed := w.past.failed + w.metrics.failed))
  }

  /** The past after a reconcile cut short: the stops it could not record are the crash's. */
  function Died(before: History, after: History): History {
    after.(lostStops := before.lostStops, crashed := before.crashed + (after.lostStops - before.lostStops))
  }

  ghost function Apply(nm: Namer, w: World, step: Step): World {
    match step
    case Submit(k, image, names, max) =>
      if k in w.ppis then w else w.(ppis := w.ppis[k := Submitted(image, names, max)])
    case RequestDelete(k) => w.(ppis := Delete(w.ppis, k))
    case Visit(k, env) => Reconcile(nm, w, k, env).world
    case Outside(d) => w.(store := Drifted(w.store, d))
    case Restart => Restarted(w)
    case Crash(k, env) =>
      var v := Reconcile(nm, w, k, env.(writeFails := true)).world;
      Restarted(v.(past := Died(w.past, v.past)))
  }

  function Start(maxPulls: int, maxPerNode: int): World {
    World(NewLimiter(maxPulls, maxPerNode), map[], JobStore(map[], {}), Metrics(0, 0, 0),
          History(0, 0, multiset{}, multiset{}, 0, 0, 0, 0, 0, 0, 0, multiset{}, multiset{}, {}))
  }

  ghost function Run(nm: Namer, w: World, steps: seq<Step>): World {
    if steps == [] then w else Apply(nm, Run(nm, w, steps[..|steps| - 1]), steps[|steps| - 1])
  }

  lemma {:induction false} RunInParts(nm: Namer, w: World, first: seq<Step>, second: seq<Step>)
    ensures Run(nm, w, first + second) == Run(nm, Run(nm, w, first), second)
  {
    if second == [] {
      assert first + second == first;
    } else {
      var steps := first + second;
      assert steps[..|steps| - 1] == first + second[..|second| - 1];
      RunInParts(nm, w, first, second[..|second| - 1]);
    }
  }

  // ---------------------------------------------------------------------------------------------
  // Runs in which nothing fails
  // ---------------------------------------------------------------------------------------------

  /** No call of this reconcile leaves a trace by failing: writes are recorded, cleanup is complete, and no
      creation reports an error although it worked. Refused creations and failed reads are allowed, and so are
      failed deletions of failed jobs. */
  predicate TidyEnv(env: Env) {
    && !env.writeFails && env.kept == {}
    && forall i :: 0 <= i < |env.weather| ==> TidyWeather(env.weather[i])
  }

  predicate TidyWeather(w: Weather) {
    !w.create.TimedOut?
  }

  /** Restarts between reconciles are allowed, but no crash in the middle of one. */
  predicate Tidy(step: Step) {
    match step
    case Visit(_, env) => TidyEnv(env)
    case Crash(_, _) => false
    case _ => true
  }

  /** No call of this reconcile fails at all. */
  predicate FlawlessEnv(env: Env) {
    && TidyEnv(env) && !env.getFails && env.listed.Some?
    && forall i :: 0 <= i < |env.weather| ==> FlawlessWeather(env.weather[i])
  }

  predicate FlawlessWeather(w: Weather) {
    w.create.Accepted? && !w.getFails && !w.deleteFails
  }

  predicate Flawless(step: Step) {
    Tidy(step) && !step.Restart? && (step.Visit? ==> FlawlessEnv(step.env))
  }
}
