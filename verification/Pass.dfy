/** One pass of the controller over the entries of an InProgress PrePullImage, as a function of what the
    outside world answers (internal/controller/prepullimage_controller.go, handleInProgress). */
module Pass {
  import opened RateLimiting
  import opened Cluster

  /** How the API server answers a job creation when no job of that name exists. A timed-out creation
      reports an error although the job was made. */
  datatype CreateAnswer = Accepted | Refused | TimedOut

  /** The outside world while one entry is handled: what jobs did since the previous entry, and how the
      API calls for this entry go. */
  datatype Weather = Weather(drift: seq<Drift>, create: CreateAnswer, getFails: bool, deleteFails: bool)

  const CALM := Weather([], Accepted, false, false)

  function At(weather: seq<Weather>, i: nat): Weather {
    if i < |weather| then weather[i] else CALM
  }

  datatype Metrics = Metrics(active: int, succeeded: int, failed: int)

  /** Everything a pass reads and writes. The last four fields are history. */
  datatype State = State(
    limiter: Limiter,
    store: JobStore,
    metrics: Metrics,
    entries: seq<NodeStatus>,
    pending: int, pulling: int, completed: int, failed: int,
    needsRequeue: bool,
    starts: multiset<string>,   // nodes of entries that went to Pulling
    stops: multiset<string>,    // nodes of entries that left Pulling
    claimed: set<string>,       // jobs that became bound to their entries in this pass
    phantoms: multiset<string>  // nodes of jobs made by a creation that reported an error
  )

  function Begin(limiter: Limiter, store: JobStore, metrics: Metrics, entries: seq<NodeStatus>): State {
    State(limiter, store, metrics, entries, 0, 0, 0, 0, false, multiset{}, multiset{}, {}, multiset{})
  }

  /** What a pass decides about one entry. */
  datatype Verdict = Deferred | Started | StillPulling | Succeeded | Retried | Exhausted | Settled

  function StatusOf(store: JobStore, name: string): JobStatus {
    if name in store.jobs then GetJobStatus(Some(store.jobs[name])) else JobFailed
  }

  function Judge(p: PrePullImage, l: Limiter, store: JobStore, e: NodeStatus, w: Weather): Verdict {
    match e.status
    case Pending => if l.Grants(e.node) && w.create.Accepted? then Started else Deferred
    case Pulling =>
      if w.getFails then StillPulling
      else (match StatusOf(store, e.jobName)
            case JobSucceeded => Succeeded
            case JobFailed => if e.retryCount < p.maxAttempts then Retried else Exhausted
            case _ => StillPulling)
    case _ => Settled
  }

  function EntryAfter(e: NodeStatus, v: Verdict, job: string, found: Option<Job>): NodeStatus {
    match v
    case Started => e.(status := Pulling, jobName := job, starts := e.starts + 1, found := found)
    case Succeeded => e.(status := Completed)
    case Retried => e.(status := Pending, retryCount := e.retryCount + 1)
    case Exhausted => e.(status := Failed)
    case _ => e
  }

  predicate Stops(v: Verdict) {
    v.Succeeded? || v.Retried? || v.Exhausted?
  }

  function LimiterAfter(l: Limiter, v: Verdict, node: string): Limiter {
    if v.Started? then l.Acquire(node) else if Stops(v) then l.Release(node) else l
  }

  /** A slot is taken before the job is created, so a creation reaches the server only if one is free. */
  predicate Creates(l: Limiter, e: NodeStatus, w: Weather) {
    e.status.Pending? && l.Grants(e.node) && !w.create.Refused?
  }

  function JobFor(key: Key, p: PrePullImage, e: NodeStatus, i: nat, create: CreateAnswer): Job {
    Job(key, p.image, e.node, 0, 0, 0, i, if create.Accepted? then Bound else Loose)
  }

  function StoreAfter(nm: Namer, key: Key, p: PrePullImage, l: Limiter, store: JobStore, e: NodeStatus, i: nat,
                      v: Verdict, w: Weather): JobStore {
    if Creates(l, e, w) then
      var put := store.Put(nm(key.name, e.node), JobFor(key, p, e, i, w.create));
      if v.Started? then put.Rebind(nm(key.name, e.node), key, i) else put
    else if v.Retried? then
      if w.deleteFails then store.Spend(e.jobName) else store.Remove(e.jobName)
    else store
  }

  function MetricsAfter(m: Metrics, v: Verdict): Metrics {
    match v
    case Started => m.(active := m.active + 1)
    case Succeeded => m.(active := m.active - 1, succeeded := m.succeeded + 1)
    case Retried => m.(active := m.active - 1)
    case Exhausted => m.(active := m.active - 1, failed := m.failed + 1)
    case _ => m
  }

  /** A job is made although the creation reports an error. */
  predicate MakesPhantom(nm: Namer, key: Key, l: Limiter, store: JobStore, e: NodeStatus, w: Weather) {
    Creates(l, e, w) && w.create.TimedOut? && nm(key.name, e.node) !in store.jobs
  }

  /** The job that a start binds to its entry: a new one, or one the entry made before without a record. */
  function Claims(nm: Namer, key: Key, store: JobStore, e: NodeStatus, i: nat, v: Verdict): set<string> {
    var name := nm(key.name, e.node);
    if v.Started? && (name !in store.jobs || store.LooseFrom(name, key, i)) then {name} else {}
  }

  function Bit(b: bool): int {
    if b then 1 else 0
  }

  /** Handles entry i. */
  function Handle(nm: Namer, key: Key, p: PrePullImage, s: State, i: nat, w: Weather): State
    requires i < |s.entries|
  {
    var e := s.entries[i];
    var store := DriftedAll(s.store, w.drift);
    var v := Judge(p, s.limiter, store, e, w);
    var after := EntryAfter(e, v, nm(key.name, e.node), store.Found(nm(key.name, e.node)));
    State(
      LimiterAfter(s.limiter, v, e.node),
      StoreAfter(nm, key, p, s.limiter, store, e, i, v, w),
      MetricsAfter(s.metrics, v),
      s.entries[i := after],
      s.pending + Bit(after.status.Pending?), s.pulling + Bit(after.status.Pulling?),
      s.completed + Bit(after.status.Completed?), s.failed + Bit(after.status.Failed?),
      s.needsRequeue || v.Deferred? || v.StillPulling? || v.Retried?,
      if v.Started? then s.starts + multiset{e.node} else s.starts,
      if Stops(v) then s.stops + multiset{e.node} else s.stops,
      s.claimed + Claims(nm, key, store, e, i, v),
      if MakesPhantom(nm, key, s.limiter, store, e, w) then s.phantoms + multiset{e.node} else s.phantoms)
  }

  /** The state after the first n entries have been handled. */
  function After(nm: Namer, key: Key, p: PrePullImage, s0: State, weather: seq<Weather>, n: nat): (s: State)
    requires n <= |s0.entries|
    ensures |s.entries| == |s0.entries|
    decreases n
  {
    if n == 0 then s0
    else Handle(nm, key, p, After(nm, key, p, s0, weather, n - 1), n - 1, At(weather, n - 1))
  }

  function FullPass(nm: Namer, key: Key, p: PrePullImage, s0: State, weather: seq<Weather>): (s: State)
    ensures |s.entries| == |s0.entries|
  {
    After(nm, key, p, s0, weather, |s0.entries|)
  }

  // ---------------------------------------------------------------------------------------------
  // What a pass does to each entry
  // ---------------------------------------------------------------------------------------------

  /** The only moves an entry can make, whatever the world answers. */
  predicate Move(e: NodeStatus, f: NodeStatus, maxAttempts: int) {
    && e.node == f.node
    && match (e.status, f.status) {
         case (Pending, Pulling) => f.retryCount == e.retryCount && f.starts == e.starts + 1
         case (Pulling, Completed) => f == e.(status := Completed)
         case (Pulling, Pending) => e.retryCount < maxAttempts && f == e.(status := Pending, retryCount := e.retryCount + 1)
         case (Pulling, Failed) => maxAttempts <= e.retryCount && f == e.(status := Failed)
         case _ => f == e
       }
  }

  /** Handling entry i moves that entry and touches no other. */
  lemma HandleMoves(nm: Namer, key: Key, p: PrePullImage, s: State, i: nat, w: Weather)
    requires i < |s.entries|
    ensures var t := Handle(nm, key, p, s, i, w);
            && t.entries == s.entries[i := t.entries[i]]
            && Move(s.entries[i], t.entries[i], p.maxAttempts)
            && Named(nm, key, s.entries[i], t.entries[i])
  {
  }

  /** An entry that has just been started carries the name of its own job. */
  predicate Named(nm: Namer, key: Key, e: NodeStatus, f: NodeStatus) {
    e.status.Pending? && f.status.Pulling? ==> f.jobName == nm(key.name, f.node)
  }

  /** Entries up to n have made one move each, the others are untouched. */
  predicate Moved(nm: Namer, key: Key, es: seq<NodeStatus>, fs: seq<NodeStatus>, n: nat, maxAttempts: int) {
    && |es| == |fs|
    && (forall i :: 0 <= i < n && i < |es| ==> Move(es[i], fs[i], maxAttempts))
    && (forall i :: n <= i < |es| ==> es[i] == fs[i])
    && (forall i :: 0 <= i < n && i < |es| ==> Named(nm, key, es[i], fs[i]))
  }

  predicate SameNodes(es: seq<NodeStatus>, fs: seq<NodeStatus>) {
    |es| == |fs| && forall i :: 0 <= i < |es| ==> es[i].node == fs[i].node
  }

  lemma MovedOnce(nm: Namer, key: Key, es: seq<NodeStatus>, fs: seq<NodeStatus>, f: NodeStatus, i: nat, maxAttempts: int)
    requires Moved(nm, key, es, fs, i, maxAttempts) && i < |fs|
    requires Move(fs[i], f, maxAttempts) && Named(nm, key, fs[i], f)
    ensures Moved(nm, key, es, fs[i := f], i + 1, maxAttempts)
  {
  }

  lemma {:induction false} EntriesMove(nm: Namer, key: Key, p: PrePullImage, s0: State, weather: seq<Weather>, n: nat)
    requires n <= |s0.entries|
    ensures Moved(nm, key, s0.entries, After(nm, key, p, s0, weather, n).entries, n, p.maxAttempts)
    decreases n
  {
    hide Handle;
    if n > 0 {
      EntriesMove(nm, key, p, s0, weather, n - 1);
      var s := After(nm, key, p, s0, weather, n - 1);
      HandleMoves(nm, key, p, s, n - 1, At(weather, n - 1));
      var t := After(nm, key, p, s0, weather, n);
      MovedOnce(nm, key, s0.entries, s.entries, t.entries[n - 1], n - 1, p.maxAttempts);
    }
  }

  /** An entry that still needs the controller's attention after the pass: waiting for a slot or a retry,
      or pulling since before the pass. */
  predicate NeedsAttention(e: NodeStatus, f: NodeStatus) {
    f.status.Pending? || (f.status.Pulling? && e.status.Pulling?)
  }

  /** The counters kept on the way equal a recount of the n entries handled so far, and a requeue is asked
      for exactly when some handled entry needs attention. */
  predicate Counted(es: seq<NodeStatus>, s: State, n: nat) {
    && n <= |es| == |s.entries|
    && Summary(n, s.pending, s.pulling, s.completed, s.failed) == Recount(s.entries[..n])
    && (s.needsRequeue <==> exists i :: 0 <= i < n && NeedsAttention(es[i], s.entries[i]))
  }

  lemma HandleRequeues(nm: Namer, key: Key, p: PrePullImage, s: State, i: nat, w: Weather)
    requires i < |s.entries|
    ensures var t := Handle(nm, key, p, s, i, w);
            t.needsRequeue <==> s.needsRequeue || NeedsAttention(s.entries[i], t.entries[i])
  {
  }

  lemma RecountOneMore(es: seq<NodeStatus>, i: nat)
    requires i < |es|
    ensures var r, e := Recount(es[..i]), es[i].status;
            Recount(es[..i + 1]) == Summary(i + 1, r.pending + Bit(e.Pending?), r.pulling + Bit(e.Pulling?),
                                            r.completed + Bit(e.Completed?), r.failed + Bit(e.Failed?))
  {
    assert es[..i + 1][..i] == es[..i];
  }

  lemma HandleCounts(nm: Namer, key: Key, p: PrePullImage, es: seq<NodeStatus>, s: State, i: nat, w: Weather)
    requires i < |s.entries| && Counted(es, s, i) && s.entries[i] == es[i]
    ensures Counted(es, Handle(nm, key, p, s, i, w), i + 1)
  {
    HandleMoves(nm, key, p, s, i, w);
    HandleRequeues(nm, key, p, s, i, w);
    var t := Handle(nm, key, p, s, i, w);
    assert t.entries[..i] == s.entries[..i];
    RecountOneMore(t.entries, i);
    assert Recount(s.entries[..i]) == Summary(i, s.pending, s.pulling, s.completed, s.failed);
    if t.needsRequeue {
      if s.needsRequeue {
        var j :| 0 <= j < i && NeedsAttention(es[j], s.entries[j]);
        assert NeedsAttention(es[j], t.entries[j]);
      } else {
        assert NeedsAttention(es[i], t.entries[i]);
      }
    } else {
      forall j | 0 <= j < i + 1 ensures !NeedsAttention(es[j], t.entries[j]) {
        assert j < i ==> t.entries[j] == s.entries[j];
      }
    }
  }

  lemma {:induction false} CountersAreARecount(nm: Namer, key: Key, p: PrePullImage, s0: State, weather: seq<Weather>, n: nat)
    requires n <= |s0.entries|
    requires s0 == Begin(s0.limiter, s0.store, s0.metrics, s0.entries)
    ensures Counted(s0.entries, After(nm, key, p, s0, weather, n), n)
    decreases n
  {
    hide Handle;
    if n > 0 {
      CountersAreARecount(nm, key, p, s0, weather, n - 1);
      EntriesMove(nm, key, p, s0, weather, n - 1);
      HandleCounts(nm, key, p, s0.entries, After(nm, key, p, s0, weather, n - 1), n - 1, At(weather, n - 1));
    }
  }
}
