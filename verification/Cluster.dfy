/** What the API server stores: PrePullImages and pull jobs (api/v1alpha1/prepullimage_types.go,
    internal/puller/job.go). Fields marked "history" are not in the source; they record the past so that
    properties of whole runs can be stated about one state. */
module Cluster {
  import opened RateLimiting
  import opened Sums

  datatype Option<+T> = None | Some(value: T)

  /** How a job is named from the PrePullImage name and the node name. Everything about passes and runs
      holds for every such function; module Naming has the one the operator uses. */
  type Namer = (string, string) -> string

  datatype Key = Key(namespace: string, name: string)

  datatype Status = Pending | Pulling | Completed | Failed

  datatype NodeStatus = NodeStatus(
    node: string,
    status: Status,
    retryCount: int,
    jobName: string,
    starts: int,        // history: how often this entry was recorded as started
    found: Option<Job>  // history: the job that was already there at its last start, if any
  )

  datatype Phase = Unset | PhasePending | InProgress | PhaseCompleted | PhaseFailed

  datatype Summary = Summary(total: int, pending: int, pulling: int, completed: int, failed: int)

  datatype PrePullImage = PrePullImage(
    image: string,
    names: seq<string>,
    maxAttempts: int,
    finalizer: bool,
    deleting: bool,
    phase: Phase,
    nodeStatus: seq<NodeStatus>,
    summary: Summary,
    completionTime: Option<int>,
    moves: int  // history: how many recorded passes changed the status of some entry
  )

  /** The object a user or the deployment controller submits; the API server drops any status. */
  function Submitted(image: string, names: seq<string>, maxAttempts: int): PrePullImage {
    PrePullImage(image, names, maxAttempts, false, false, Unset, [], Summary(0, 0, 0, 0, 0), None, 0)
  }

  /** History of a job: how it stands to the entry that made it. Bound: that entry is, or will be, recorded
      as started on it. Loose: the record of that start was lost, or the creation reported an error. Spent:
      its deletion before a retry failed. Orphaned: it outlived its PrePullImage, because cleanup failed. */
  datatype Tie = Bound | Loose | Spent | Orphaned

  /** A pull job. The owner is its label and annotations; index and tie are history. */
  datatype Job = Job(
    owner: Key, image: string, node: string,
    active: nat, succeeded: nat, failed: nat,
    index: nat,  // which entry of its owner made it
    tie: Tie
  )

  datatype JobStatus = JobPending | JobRunning | JobSucceeded | JobFailed

  function GetJobStatus(job: Option<Job>): JobStatus {
    if job.None? then JobPending
    else if job.value.succeeded > 0 then JobSucceeded
    else if job.value.failed > 0 then JobFailed
    else if job.value.active > 0 then JobRunning
    else JobPending
  }

  predicate Unfinished(j: Job) {
    GetJobStatus(Some(j)).JobPending? || GetJobStatus(Some(j)).JobRunning?
  }

  /** The job store, and the history of (image, node) pairs some job reported as pulled. */
  datatype JobStore = JobStore(jobs: map<string, Job>, pulled: set<(string, string)>) {
    function Put(name: string, j: Job): JobStore {
      if name in jobs then this else this.(jobs := jobs[name := j])
    }

    function Remove(name: string): JobStore {
      this.(jobs := jobs - {name})
    }

    /** Deletes the jobs labelled with a PrePullImage name, except those in kept. */
    function Cleanup(name: string, kept: set<string>): JobStore {
      this.(jobs := map n | n in jobs && (jobs[n].owner.name != name || n in kept) :: jobs[n])
    }

    function Labelled(name: string): set<string> {
      set n | n in jobs && jobs[n].owner.name == name
    }

    function Found(name: string): Option<Job> {
      if name in jobs then Some(jobs[name]) else None
    }

    // History: how ties change.

    /** Entry i of key made this job without a record of it. */
    predicate LooseFrom(name: string, key: Key, i: nat) {
      name in jobs && jobs[name].tie.Loose? && jobs[name].owner == key && jobs[name].index == i
    }

    /** Entry i of key adopts the job; if it made it itself, it answers for it again. */
    function Rebind(name: string, key: Key, i: nat): JobStore {
      if LooseFrom(name, key, i) then this.(jobs := jobs[name := jobs[name].(tie := Bound)]) else this
    }

    function Spend(name: string): JobStore {
      if name in jobs && jobs[name].tie.Bound? then this.(jobs := jobs[name := jobs[name].(tie := Spent)]) else this
    }

    function Loosen(names: set<string>, key: Key): JobStore {
      this.(jobs := map n | n in jobs ::
              if n in names && jobs[n].owner == key && jobs[n].tie.Bound? then jobs[n].(tie := Loose) else jobs[n])
    }

    function Orphan(key: Key): JobStore {
      this.(jobs := map n | n in jobs :: if jobs[n].owner == key then jobs[n].(tie := Orphaned) else jobs[n])
    }
  }

  /** What happens to jobs outside the operator: their counters move up, or they vanish (finished-job
      TTL, manual deletion). */
  datatype Drift =
    | Report(name: string, active: nat, succeeded: nat, failed: nat)
    | Vanish(name: string)

  function Drifted(store: JobStore, d: Drift): JobStore {
    match d
    case Report(n, a, s, f) =>
      if n in store.jobs && store.jobs[n].succeeded <= s && store.jobs[n].failed <= f then
        var j := store.jobs[n];
        JobStore(store.jobs[n := j.(active := a, succeeded := s, failed := f)],
                 if s > 0 then store.pulled + {(j.image, j.node)} else store.pulled)
      else store
    case Vanish(n) => store.Remove(n)
  }

  function DriftedAll(store: JobStore, ds: seq<Drift>): JobStore
    decreases ds
  {
    if ds == [] then store else DriftedAll(Drifted(store, ds[0]), ds[1..])
  }

  // ---------------------------------------------------------------------------------------------
  // Weighing entries: one notion of sum for every quantity the proofs keep books on
  // ---------------------------------------------------------------------------------------------

  datatype Measure =
    | Using(slot: Slot)          // Pulling entries that take this slot
    | Retries                    // retry counts
    | InStatus(status: Status)   // entries in one status
    | Rank(attempts: int)        // how many status changes an entry has left

  function Weight(m: Measure, e: NodeStatus): int {
    match m
    case Using(s) => if e.status.Pulling? then Unit(s, e.node) else 0
    case Retries => e.retryCount
    case InStatus(st) => if e.status == st then 1 else 0
    case Rank(attempts) =>
      match e.status {
        case Pending => 2 * (attempts - e.retryCount) + 2
        case Pulling => 2 * (attempts - e.retryCount) + 1
        case _ => 0
      }
  }

  function Tally(es: seq<NodeStatus>, m: Measure): int {
    if es == [] then 0 else Tally(es[..|es| - 1], m) + Weight(m, es[|es| - 1])
  }

  lemma {:induction false} TallyUpdate(es: seq<NodeStatus>, i: nat, e: NodeStatus, m: Measure)
    requires i < |es|
    ensures Tally(es[i := e], m) == Tally(es, m) - Weight(m, es[i]) + Weight(m, e)
  {
    var last := |es| - 1;
    if i == last {
      assert es[i := e][..last] == es[..last];
    } else {
      assert es[i := e][..last] == es[..last][i := e];
      TallyUpdate(es[..last], i, e, m);
    }
  }

  /** Entry by entry comparison carries over to tallies, strictly if one entry is strictly smaller. */
  lemma {:induction false} TallyMonotone(es: seq<NodeStatus>, fs: seq<NodeStatus>, m: Measure)
    requires |es| == |fs|
    requires forall i :: 0 <= i < |es| ==> Weight(m, es[i]) <= Weight(m, fs[i])
    ensures Tally(es, m) <= Tally(fs, m)
    ensures (exists i :: 0 <= i < |es| && Weight(m, es[i]) < Weight(m, fs[i])) ==> Tally(es, m) < Tally(fs, m)
  {
    if es != [] {
      var last := |es| - 1;
      TallyMonotone(es[..last], fs[..last], m);
      if i :| 0 <= i < |es| && Weight(m, es[i]) < Weight(m, fs[i]) {
        assert i < last ==> Weight(m, es[..last][i]) < Weight(m, fs[..last][i]);
      }
    }
  }

  lemma {:induction false} TallyBounds(es: seq<NodeStatus>, m: Measure)
    requires forall i :: 0 <= i < |es| ==> 0 <= Weight(m, es[i])
    ensures 0 <= Tally(es, m)
    ensures forall i :: 0 <= i < |es| ==> Weight(m, es[i]) <= Tally(es, m)
    ensures (forall i :: 0 <= i < |es| ==> Weight(m, es[i]) == 0) ==> Tally(es, m) == 0
  {
    if es != [] {
      var last := |es| - 1;
      TallyBounds(es[..last], m);
      forall i | 0 <= i < |es| ensures Weight(m, es[i]) <= Tally(es, m) {
        assert i < last ==> Weight(m, es[..last][i]) <= Tally(es[..last], m);
      }
    }
  }

  /** The fresh recount the status summary is meant to equal. */
  function Recount(es: seq<NodeStatus>): Summary {
    Summary(|es|, Tally(es, InStatus(Pending)), Tally(es, InStatus(Pulling)),
            Tally(es, InStatus(Completed)), Tally(es, InStatus(Failed)))
  }

  lemma {:induction false} RecountAddsUp(es: seq<NodeStatus>)
    ensures var s := Recount(es); s.pending + s.pulling + s.completed + s.failed == s.total == |es|
  {
    if es != [] {
      RecountAddsUp(es[..|es| - 1]);
    }
  }

  /** The phase that the entries of an initialised PrePullImage call for. */
  function PhaseOf(es: seq<NodeStatus>): Phase {
    if exists i :: 0 <= i < |es| && !Terminal(es[i].status) then InProgress
    else if exists i :: 0 <= i < |es| && es[i].status.Failed? then PhaseFailed
    else PhaseCompleted
  }

  predicate Terminal(s: Status) {
    s.Completed? || s.Failed?
  }

  predicate Early(p: Phase) {
    p.Unset? || p.PhasePending?
  }

  /** PhaseOf read off the counters, as the controller does. */
  lemma PhaseFromCounts(es: seq<NodeStatus>)
    ensures var s := Recount(es);
            PhaseOf(es) == if s.pending != 0 || s.pulling != 0 then InProgress
                           else if s.failed > 0 then PhaseFailed else PhaseCompleted
  {
    TallyBounds(es, InStatus(Pending));
    TallyBounds(es, InStatus(Pulling));
    TallyBounds(es, InStatus(Failed));
    forall i | 0 <= i < |es| && !Terminal(es[i].status)
      ensures Weight(InStatus(Pending), es[i]) + Weight(InStatus(Pulling), es[i]) == 1
    {
    }
  }

  /** The sum of a measure over every entry of every PrePullImage. */
  ghost function Everywhere(ppis: map<Key, PrePullImage>, m: Measure): int {
    Sum(map k | k in ppis :: Tally(ppis[k].nodeStatus, m))
  }

  lemma EverywherePut(ppis: map<Key, PrePullImage>, k: Key, p: PrePullImage, m: Measure)
    ensures Everywhere(ppis[k := p], m)
         == Everywhere(ppis, m) - (if k in ppis then Tally(ppis[k].nodeStatus, m) else 0) + Tally(p.nodeStatus, m)
  {
    var f := map q | q in ppis :: Tally(ppis[q].nodeStatus, m);
    var after := ppis[k := p];
    assert (map q | q in after :: Tally(after[q].nodeStatus, m)) == f[k := Tally(p.nodeStatus, m)];
    SumPut(f, k, Tally(p.nodeStatus, m));
  }

  lemma EverywhereDrop(ppis: map<Key, PrePullImage>, k: Key, m: Measure)
    requires k in ppis
    ensures Everywhere(ppis - {k}, m) == Everywhere(ppis, m) - Tally(ppis[k].nodeStatus, m)
  {
    var f := map q | q in ppis :: Tally(ppis[q].nodeStatus, m);
    var after := ppis - {k};
    assert (map q | q in after :: Tally(after[q].nodeStatus, m)) == f - {k};
    SumRemove(f, k);
  }

  /** One PrePullImage weighs no more than all of them. */
  lemma UsingEverywhere(ppis: map<Key, PrePullImage>, s: Slot)
    ensures 0 <= Everywhere(ppis, Using(s))
    ensures forall k :: k in ppis ==> 0 <= Tally(ppis[k].nodeStatus, Using(s)) <= Everywhere(ppis, Using(s))
  {
    var f := map q | q in ppis :: Tally(ppis[q].nodeStatus, Using(s));
    forall k | k in f ensures 0 <= f[k] {
      TallyBounds(ppis[k].nodeStatus, Using(s));
    }
    SumNonNegative(f);
    forall k | k in ppis ensures 0 <= Tally(ppis[k].nodeStatus, Using(s)) <= Everywhere(ppis, Using(s)) {
      assert f[k] == Tally(ppis[k].nodeStatus, Using(s));
    }
  }
}
