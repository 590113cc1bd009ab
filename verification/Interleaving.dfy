/** Several workers: passes over different PrePullImages run at the same time, entry by entry, on one limiter and
    one job store. The ledger survives this. */
module Interleaving {
  import opened RateLimiting
  import opened Cluster
  import opened Pass
  import opened System
  import opened Lifecycle
  import opened Ledger
  import opened Jobs

  /** A pass under way: the record it has read, what it has done so far, and its next entry. Limiter, store and
      metrics are shared, so the ones in s are out of date; phantoms go into the common past at once. */
  datatype Flight = Flight(p: PrePullImage, s: State, next: nat)

  /** For an object with a pass under way, the world has the entries of the worker's copy, which nobody else reads;
      the API server still has those of the record as read. */
  datatype Floor = Floor(world: World, flights: map<Key, Flight>)

  datatype Act =
    | Take(key: Key)                   // a worker reads a record and begins a pass
    | Turn(key: Key, weather: Weather) // it handles its next entry
    | Finish(key: Key, now: int)       // it has handled all, and writes the result
    | Abort(key: Key)                  // the result is never recorded: the write fails, or the process dies
    | Other(step: Step)                // anything else, in one step

  predicate CanTake(b: Floor, key: Key) {
    && key in b.world.ppis && key !in b.flights
    && b.world.ppis[key].finalizer && !b.world.ppis[key].deleting && b.world.ppis[key].phase.InProgress?
  }

  function Taken(b: Floor, key: Key): Floor
    requires CanTake(b, key)
  {
    var w, p := b.world, b.world.ppis[key];
    b.(flights := b.flights[key := Flight(p, Begin(w.limiter, w.store, w.metrics, p.nodeStatus), 0)])
  }

  predicate CanTurn(b: Floor, key: Key) {
    && key in b.flights && key in b.world.ppis
    && b.flights[key].next < |b.flights[key].s.entries|
  }

  function Now(w: World, f: Flight): State {
    f.s.(limiter := w.limiter, store := w.store, metrics := w.metrics)
  }

  function AfterTurn(nm: Namer, b: Floor, key: Key, weather: Weather): State
    requires CanTurn(b, key)
  {
    var f := b.flights[key];
    Handle(nm, key, f.p, Now(b.world, f), f.next, weather)
  }

  function Turned(nm: Namer, b: Floor, key: Key, weather: Weather): Floor
    requires CanTurn(b, key)
  {
    var w, f, t := b.world, b.flights[key], AfterTurn(nm, b, key, weather);
    Floor(w.(limiter := t.limiter, store := t.store, metrics := t.metrics, ppis := With(w.ppis, key, t.entries),
             past := w.past.(phantoms := w.past.phantoms + t.phantoms)),
          b.flights[key := Flight(f.p, t.(phantoms := multiset{}), f.next + 1)])
  }

  /** A result is written only over the record that was read; if its deletion has been requested meanwhile, the API
      server refuses the write. */
  predicate CanFinish(b: Floor, key: Key) {
    && key in b.flights && key in b.world.ppis && !b.world.ppis[key].deleting
    && b.flights[key].next == |b.flights[key].s.entries| == |b.flights[key].p.nodeStatus|
  }

  function Finished(b: Floor, key: Key, now: int): Floor
    requires CanFinish(b, key)
  {
    var w, f := b.world, b.flights[key];
    Floor(w.(ppis := w.ppis[key := Concluded(f.p, f.s, now)], past := Noted(w.past, f.s)), b.flights - {key})
  }

  predicate CanAbort(b: Floor, key: Key) {
    key in b.flights && key in b.world.ppis
  }

  function Aborted(b: Floor, key: Key): Floor
    requires CanAbort(b, key)
  {
    var w, f := b.world, b.flights[key];
    Floor(w.(store := w.store.Loosen(f.s.claimed, key), past := Lost(w.past, f.p, f.s),
             ppis := With(w.ppis, key, f.p.nodeStatus)),
          b.flights - {key})
  }

  /** The work queue never hands out an object twice at a time; a process that ends leaves no pass under way. */
  predicate Allowed(b: Floor, step: Step) {
    match step
    case Visit(k, _) => k !in b.flights
    case Restart => b.flights == map[]
    case Crash(_, _) => b.flights == map[]
    case _ => true
  }

  ghost function Stepped(nm: Namer, b: Floor, step: Step): Floor {
    b.(world := Apply(nm, b.world, step))
  }

  ghost function Perform(nm: Namer, b: Floor, act: Act): Floor {
    match act
    case Take(k) => if CanTake(b, k) then Taken(b, k) else b
    case Turn(k, weather) => if CanTurn(b, k) then Turned(nm, b, k, weather) else b
    case Finish(k, now) => if CanFinish(b, k) then Finished(b, k, now) else b
    case Abort(k) => if CanAbort(b, k) then Aborted(b, k) else b
    case Other(step) => if Allowed(b, step) then Stepped(nm, b, step) else b
  }

  ghost function PerformAll(nm: Namer, b: Floor, acts: seq<Act>): Floor {
    if acts == [] then b else Perform(nm, PerformAll(nm, b, acts[..|acts| - 1]), acts[|acts| - 1])
  }

  function Open(maxPulls: int, maxPerNode: int): Floor {
    Floor(Start(maxPulls, maxPerNode), map[])
  }

  // ---------------------------------------------------------------------------------------------
  // Why this is the same system
  // ---------------------------------------------------------------------------------------------

  /** Two replies agree, but for the records of other objects, which are those given. */
  predicate AgreeApart(u: Reply, v: Reply, ppis: map<Key, PrePullImage>, key: Key) {
    && u.outcome == v.outcome && v.world == u.world.(ppis := v.world.ppis)
    && (if key in u.world.ppis then v.world.ppis == ppis[key := u.world.ppis[key]] else v.world.ppis == ppis - {key})
  }

  lemma PassReadsOwnRecord(nm: Namer, w: World, ppis: map<Key, PrePullImage>, key: Key, env: Env)
    requires key in w.ppis && key in ppis && ppis[key] == w.ppis[key]
    ensures AgreeApart(HandleInProgress(nm, w, key, env), HandleInProgress(nm, w.(ppis := ppis), key, env), ppis, key)
  {
    hide FullPass;
    hide Concluded;
    hide Lost;
    hide Noted;
  }

  lemma DeletionReadsOwnRecord(w: World, ppis: map<Key, PrePullImage>, key: Key, env: Env)
    requires key in w.ppis && key in ppis && ppis[key] == w.ppis[key]
    ensures AgreeApart(HandleDeletion(w, key, env), HandleDeletion(w.(ppis := ppis), key, env), ppis, key)
  {
    hide PullingNodes;
    hide ReleaseAll;
    hide Tally;
    hide StillRunning;
  }

  lemma QuietReadsOwnRecord(nm: Namer, w: World, ppis: map<Key, PrePullImage>, key: Key, env: Env)
    requires key in w.ppis && key in ppis && ppis[key] == w.ppis[key]
    ensures AgreeApart(HandlePending(w, key, env), HandlePending(w.(ppis := ppis), key, env), ppis, key)
    ensures AgreeApart(HandleCompleted(w, key, env), HandleCompleted(w.(ppis := ppis), key, env), ppis, key)
  {
    hide Initialised;
  }

  /** A visit reads and writes no record but its own, so the copies of passes under way do not matter to it. */
  lemma VisitReadsOwnRecord(nm: Namer, w: World, ppis: map<Key, PrePullImage>, key: Key, env: Env)
    requires key in w.ppis && key in ppis && ppis[key] == w.ppis[key]
    ensures AgreeApart(Reconcile(nm, w, key, env), Reconcile(nm, w.(ppis := ppis), key, env), ppis, key)
  {
    hide HandleInProgress;
    hide HandleDeletion;
    hide HandlePending;
    hide HandleCompleted;
    var p := w.ppis[key];
    if env.getFails || (!p.deleting && !p.finalizer) {
      assert ppis[key := p] == ppis;
    } else {
      hide AgreeApart;
      PassReadsOwnRecord(nm, w, ppis, key, env);
      DeletionReadsOwnRecord(w, ppis, key, env);
      QuietReadsOwnRecord(nm, w, ppis, key, env);
    }
  }

  function FirstTurns(key: Key, weather: seq<Weather>, n: nat): seq<Act> {
    if n == 0 then [Take(key)] else FirstTurns(key, weather, n - 1) + [Turn(key, At(weather, n - 1))]
  }

  lemma OneMoreAct(nm: Namer, b: Floor, acts: seq<Act>, act: Act)
    ensures PerformAll(nm, b, acts + [act]) == Perform(nm, PerformAll(nm, b, acts), act)
  {
    assert (acts + [act])[..|acts|] == acts;
  }

  /** A pass begun in b has come to state s, before entry n, and nothing else has happened. */
  function Landed(b: Floor, key: Key, s: State, n: nat): Floor
    requires CanTake(b, key)
  {
    var w := b.world;
    Floor(w.(limiter := s.limiter, store := s.store, metrics := s.metrics, ppis := With(w.ppis, key, s.entries),
             past := w.past.(phantoms := w.past.phantoms + s.phantoms)),
          b.flights[key := Flight(w.ppis[key], s.(phantoms := multiset{}), n)])
  }

  lemma TurnFrom(nm: Namer, b: Floor, key: Key, s: State, n: nat, weather: Weather)
    requires CanTake(b, key) && n < |s.entries|
    ensures Perform(nm, Landed(b, key, s, n), Turn(key, weather))
         == Landed(b, key, Handle(nm, key, b.world.ppis[key], s, n, weather), n + 1)
  {
    var p, c, w := b.world.ppis[key], Landed(b, key, s, n), b.world;
    PhantomsApart(nm, key, p, s, n, weather);
    hide Handle;
    var t, u := Handle(nm, key, p, s, n, weather), Handle(nm, key, p, s.(phantoms := multiset{}), n, weather);
    assert Now(c.world, c.flights[key]) == s.(phantoms := multiset{});
    assert w.past.phantoms + s.phantoms + u.phantoms == w.past.phantoms + t.phantoms;
    assert With(c.world.ppis, key, t.entries) == With(w.ppis, key, t.entries);
    assert c.flights[key := Flight(p, u.(phantoms := multiset{}), n + 1)]
        == b.flights[key := Flight(p, t.(phantoms := multiset{}), n + 1)];
  }

  /** Where the first n turns of a pass lead if nothing comes in between. */
  function Reached(nm: Namer, b: Floor, key: Key, weather: seq<Weather>, n: nat): Floor
    requires CanTake(b, key) && n <= |b.world.ppis[key].nodeStatus|
  {
    var w, p := b.world, b.world.ppis[key];
    Landed(b, key, After(nm, key, p, Begin(w.limiter, w.store, w.metrics, p.nodeStatus), weather, n), n)
  }

  lemma OneMoreTurn(nm: Namer, b: Floor, key: Key, weather: seq<Weather>, n: nat)
    requires CanTake(b, key) && n < |b.world.ppis[key].nodeStatus|
    ensures Perform(nm, Reached(nm, b, key, weather, n), Turn(key, At(weather, n))) == Reached(nm, b, key, weather, n + 1)
  {
    hide Handle;
    hide Perform;
    hide Landed;
    var w, p := b.world, b.world.ppis[key];
    TurnFrom(nm, b, key, After(nm, key, p, Begin(w.limiter, w.store, w.metrics, p.nodeStatus), weather, n), n, At(weather, n));
  }

  /** The phantoms of one turn do not depend on those before. */
  lemma PhantomsApart(nm: Namer, key: Key, p: PrePullImage, s: State, i: nat, w: Weather)
    requires i < |s.entries|
    ensures var t, u := Handle(nm, key, p, s, i, w), Handle(nm, key, p, s.(phantoms := multiset{}), i, w);
            t == u.(phantoms := s.phantoms + u.phantoms)
  {
  }

  lemma {:induction false} FirstTurnsReach(nm: Namer, b: Floor, key: Key, weather: seq<Weather>, n: nat)
    requires CanTake(b, key) && n <= |b.world.ppis[key].nodeStatus|
    ensures PerformAll(nm, b, FirstTurns(key, weather, n)) == Reached(nm, b, key, weather, n)
    decreases n
  {
    hide Perform;
    hide After;
    if n == 0 {
      OneMoreAct(nm, b, [], Take(key));
      assert [] + [Take(key)] == [Take(key)];
      TakeReaches(nm, b, key, weather);
    } else {
      hide Reached;
      FirstTurnsReach(nm, b, key, weather, n - 1);
      OneMoreAct(nm, b, FirstTurns(key, weather, n - 1), Turn(key, At(weather, n - 1)));
      OneMoreTurn(nm, b, key, weather, n - 1);
    }
  }

  lemma TakeReaches(nm: Namer, b: Floor, key: Key, weather: seq<Weather>)
    requires CanTake(b, key)
    ensures Perform(nm, b, Take(key)) == Reached(nm, b, key, weather, 0)
  {
    assert With(b.world.ppis, key, b.world.ppis[key].nodeStatus) == b.world.ppis;
  }

  lemma FinishFrom(nm: Namer, b: Floor, key: Key, s: State, now: int)
    requires CanTake(b, key) && |s.entries| == |b.world.ppis[key].nodeStatus|
    ensures var w, p := b.world, b.world.ppis[key];
            Perform(nm, Landed(b, key, s, |s.entries|), Finish(key, now))
            == b.(world := w.(limiter := s.limiter, store := s.store, metrics := s.metrics,
                              ppis := w.ppis[key := Concluded(p, s, now)], past := Noted(w.past, s)))
  {
    var r := Landed(b, key, s, |s.entries|);
    assert r.flights - {key} == b.flights;
    assert Concluded(b.world.ppis[key], s.(phantoms := multiset{}), now) == Concluded(b.world.ppis[key], s, now);
    hide Concluded;
    var q := Concluded(b.world.ppis[key], s, now);
    assert r.world.ppis[key := q] == b.world.ppis[key := q];
  }

  lemma AbortFrom(nm: Namer, b: Floor, key: Key, s: State)
    requires CanTake(b, key)
    ensures var w, p := b.world, b.world.ppis[key];
            Perform(nm, Landed(b, key, s, |s.entries|), Abort(key))
            == b.(world := w.(limiter := s.limiter, store := s.store.Loosen(s.claimed, key), metrics := s.metrics,
                              past := Lost(w.past, p, s)))
  {
    var r := Landed(b, key, s, |s.entries|);
    hide JobStore.Loosen;
    assert r.flights - {key} == b.flights;
    assert With(r.world.ppis, key, b.world.ppis[key].nodeStatus) == b.world.ppis;
  }

  /** The parts of a reconcile, one by one, with nothing in between, are the reconcile. */
  lemma UninterruptedIsVisit(nm: Namer, b: Floor, key: Key, env: Env)
    requires CanTake(b, key) && !env.getFails
    ensures var last := if env.writeFails then Abort(key) else Finish(key, env.now);
            PerformAll(nm, b, FirstTurns(key, env.weather, |b.world.ppis[key].nodeStatus|) + [last])
            == b.(world := Reconcile(nm, b.world, key, env).world)
  {
    var w, n, s := b.world, |b.world.ppis[key].nodeStatus|, PassOver(nm, b.world, key, env);
    FirstTurnsReach(nm, b, key, env.weather, n);
    OneMoreAct(nm, b, FirstTurns(key, env.weather, n), if env.writeFails then Abort(key) else Finish(key, env.now));
    hide Perform;
    hide Landed;
    hide After;
    hide Concluded;
    hide Lost;
    hide Noted;
    hide JobStore.Loosen;
    FinishFrom(nm, b, key, s, env.now);
    AbortFrom(nm, b, key, s);
  }

  // ---------------------------------------------------------------------------------------------
  // Passes under way
  // ---------------------------------------------------------------------------------------------

  /** So far the pass has made one move per entry and counted them; nothing else has changed since the record was
      read, except that its deletion may have been requested. */
  predicate FlightOk(nm: Namer, key: Key, f: Flight, p: PrePullImage) {
    && PpiOk(nm, key, f.p) && f.p.phase.InProgress? && !f.p.deleting
    && p == f.p.(deleting := p.deleting, nodeStatus := f.s.entries)
    && Moved(nm, key, f.p.nodeStatus, f.s.entries, f.next, f.p.maxAttempts)
    && Counted(f.p.nodeStatus, f.s, f.next)
  }

  predicate FloorOk(nm: Namer, b: Floor) {
    && b.world.limiter.Valid()
    && b.flights.Keys <= b.world.ppis.Keys
    && forall k :: k in b.world.ppis ==> RecordOk(nm, k, b.flights, b.world.ppis[k])
  }

  predicate RecordOk(nm: Namer, key: Key, flights: map<Key, Flight>, p: PrePullImage) {
    if key in flights then FlightOk(nm, key, flights[key], p) else PpiOk(nm, key, p)
  }

  lemma TakeKeepsFloorOk(nm: Namer, b: Floor, key: Key)
    requires FloorOk(nm, b) && CanTake(b, key)
    ensures FloorOk(nm, Taken(b, key))
  {
    assert Recount([]) == Summary(0, 0, 0, 0, 0);
    assert RecordOk(nm, key, b.flights, b.world.ppis[key]);
    assert FlightOk(nm, key, Taken(b, key).flights[key], b.world.ppis[key]);
    hide FlightOk;
    hide PpiOk;
  }

  lemma TurnKeepsFlightOk(nm: Namer, b: Floor, key: Key, weather: Weather)
    requires FloorOk(nm, b) && CanTurn(b, key)
    ensures var c := Turned(nm, b, key, weather);
            && FlightOk(nm, key, c.flights[key], c.world.ppis[key])
            && c.world.limiter.Valid() && c.world.limiter.Fresh() == b.world.limiter.Fresh()
  {
    hide PpiOk;
    var f := b.flights[key];
    var s, i := Now(b.world, f), f.next;
    assert RecordOk(nm, key, b.flights, b.world.ppis[key]);
    HandleMoves(nm, key, f.p, s, i, weather);
    HandleCounts(nm, key, f.p, f.p.nodeStatus, s, i, weather);
    HandleKeepsValid(nm, key, f.p, s, i, weather);
    MovedOnce(nm, key, f.p.nodeStatus, f.s.entries, AfterTurn(nm, b, key, weather).entries[i], i, f.p.maxAttempts);
    hide Handle;
  }

  lemma FinishKeepsFloorOk(nm: Namer, b: Floor, key: Key, now: int)
    requires FloorOk(nm, b) && CanFinish(b, key)
    ensures FloorOk(nm, Finished(b, key, now))
  {
    var f := b.flights[key];
    assert RecordOk(nm, key, b.flights, b.world.ppis[key]);
    Concludes(nm, key, f.p, f.s, now);
    hide PpiOk;
    hide Concluded;
    hide FlightOk;
  }

  lemma AbortKeepsFloorOk(nm: Namer, b: Floor, key: Key)
    requires FloorOk(nm, b) && CanAbort(b, key)
    ensures FloorOk(nm, Aborted(b, key))
  {
    var f := b.flights[key];
    assert RecordOk(nm, key, b.flights, b.world.ppis[key]);
    var q := Aborted(b, key).world.ppis[key];
    assert q == f.p.(deleting := q.deleting);
    assert PpiOk(nm, key, q);
    hide PpiOk;
    hide FlightOk;
  }

  lemma FloorOkSteps(nm: Namer, b: Floor, step: Step)
    requires FloorOk(nm, b) && Allowed(b, step)
    ensures StepOk(nm, b.world, step)
  {
    match step
    case RequestDelete(k) => assert k in b.world.ppis ==> RecordOk(nm, k, b.flights, b.world.ppis[k]);
    case Visit(k, _) => assert k in b.world.ppis ==> RecordOk(nm, k, b.flights, b.world.ppis[k]);
    case Crash(k, _) => assert k in b.world.ppis ==> RecordOk(nm, k, b.flights, b.world.ppis[k]);
    case _ =>
  }

  lemma AdvancedIsOk(nm: Namer, b: Floor, v: World, key: Key)
    requires FloorOk(nm, b) && key !in b.flights && Advances(nm, b.world, v, key)
    ensures FloorOk(nm, b.(world := v))
  {
    hide PpiOk;
    hide FlightOk;
    hide Forward;
    forall k | k in v.ppis ensures RecordOk(nm, k, b.flights, v.ppis[k]) {
      if k != key {
        assert RecordOk(nm, k, b.flights, b.world.ppis[k]);
      }
    }
    hide RecordOk;
  }

  lemma VisitKeepsFloorOk(nm: Namer, b: Floor, key: Key, env: Env)
    requires FloorOk(nm, b) && key !in b.flights
    ensures FloorOk(nm, Stepped(nm, b, Visit(key, env)))
    ensures Stepped(nm, b, Visit(key, env)).world.limiter.Fresh() == b.world.limiter.Fresh()
  {
    FloorOkSteps(nm, b, Visit(key, env));
    hide FloorOk;
    hide OkAt;
    hide Reconcile;
    ReconcileAdvances(nm, b.world, key, env);
    AdvancedIsOk(nm, b, Reconcile(nm, b.world, key, env).world, key);
  }

  lemma MarkedIsOk(nm: Namer, key: Key, flights: map<Key, Flight>, p: PrePullImage)
    requires RecordOk(nm, key, flights, p)
    ensures if p.finalizer then RecordOk(nm, key, flights, p.(deleting := true)) else key !in flights
  {
    if key !in flights {
      ForwardToSelf(nm, key, p);
    }
  }

  lemma RequestKeepsFloorOk(nm: Namer, b: Floor, key: Key)
    requires FloorOk(nm, b)
    ensures FloorOk(nm, Stepped(nm, b, RequestDelete(key)))
  {
    hide RecordOk;
    if key in b.world.ppis {
      MarkedIsOk(nm, key, b.flights, b.world.ppis[key]);
    }
  }

  lemma StepKeepsFloorOk(nm: Namer, b: Floor, step: Step)
    requires FloorOk(nm, b) && Allowed(b, step)
    ensures FloorOk(nm, Stepped(nm, b, step))
    ensures Stepped(nm, b, step).world.limiter.Fresh() == b.world.limiter.Fresh()
  {
    hide Reconcile;
    match step
    case Visit(k, env) => VisitKeepsFloorOk(nm, b, k, env);
    case RequestDelete(k) => RequestKeepsFloorOk(nm, b, k);
    case Submit(k, image, names, max) =>
      assert k !in b.flights ==> RecordOk(nm, k, b.flights, Submitted(image, names, max));
      hide RecordOk;
    case Crash(k, env) =>
      FloorOkSteps(nm, b, step);
      FailedWriteKeeps(nm, b.world, k, env.(writeFails := true));
      hide RecordOk;
      hide PpiOk;
    case _ => hide RecordOk;
  }

  lemma PerformKeepsFloorOk(nm: Namer, b: Floor, act: Act)
    requires FloorOk(nm, b)
    ensures FloorOk(nm, Perform(nm, b, act))
    ensures Perform(nm, b, act).world.limiter.Fresh() == b.world.limiter.Fresh()
  {
    hide Handle;
    hide Stepped;
    hide PpiOk;
    hide FlightOk;
    match act
    case Take(k) =>
      if CanTake(b, k) {
        TakeKeepsFloorOk(nm, b, k);
      }
    case Turn(k, weather) =>
      if CanTurn(b, k) {
        TurnKeepsFlightOk(nm, b, k, weather);
      }
    case Finish(k, now) =>
      if CanFinish(b, k) {
        FinishKeepsFloorOk(nm, b, k, now);
      }
    case Abort(k) =>
      if CanAbort(b, k) {
        AbortKeepsFloorOk(nm, b, k);
      }
    case Other(step) =>
      if Allowed(b, step) {
        StepKeepsFloorOk(nm, b, step);
      }
  }

  // ---------------------------------------------------------------------------------------------
  // The ledger
  // ---------------------------------------------------------------------------------------------

  /** So far, a pass under way has changed its Pulling entries by its starts less its stops. */
  predicate FlightBalanced(f: Flight, slot: Slot) {
    Tally(f.s.entries, Using(slot)) - Tally(f.p.nodeStatus, Using(slot)) == Share(f.s.starts, slot) - Share(f.s.stops, slot)
  }

  /** The ledger of the Pulling entries, worker's copies included, and its exact form. */
  ghost predicate FloorInLedger(b: Floor, slot: Slot) {
    && InLedger(b.world, slot) && Leaks(b.world, slot)
    && forall k :: k in b.flights ==> FlightBalanced(b.flights[k], slot)
  }

  /** What a turn does to one slot, in numbers. */
  lemma TurnInNumbers(w: World, v: World, s: State, t: State, slot: Slot)
    requires w.limiter.Valid() && InLedger(w, slot) && Leaks(w, slot)
    requires Balanced(s, t, slot) && s.limiter == w.limiter && t.limiter == v.limiter
    requires v.past.restarts == w.past.restarts && t.limiter.Fresh() == s.limiter.Fresh()
    requires v.past.lostStarts == w.past.lostStarts && v.past.lostStops == w.past.lostStops
    requires 0 <= Tally(s.entries, Using(slot)) <= Pulls(w, slot)
    requires Pulls(v, slot) == Pulls(w, slot) - Tally(s.entries, Using(slot)) + Tally(t.entries, Using(slot))
    ensures InLedger(v, slot) && Leaks(v, slot)
  {
    hide Pulls;
    assert t.limiter.Limit(slot) == s.limiter.Limit(slot);
  }

  lemma TurnInLedger(nm: Namer, b: Floor, key: Key, weather: Weather, slot: Slot)
    requires FloorOk(nm, b) && FloorInLedger(b, slot) && CanTurn(b, key)
    ensures FloorInLedger(Turned(nm, b, key, weather), slot)
  {
    var f, c, p := b.flights[key], Turned(nm, b, key, weather), b.world.ppis[key];
    var s, t := Now(b.world, f), AfterTurn(nm, b, key, weather);
    HandleBalances(nm, key, f.p, s, f.next, weather, slot);
    TurnKeepsFlightOk(nm, b, key, weather);
    EverywherePut(b.world.ppis, key, p.(nodeStatus := t.entries), Using(slot));
    UsingEverywhere(b.world.ppis, slot);
    assert RecordOk(nm, key, b.flights, p) && FlightBalanced(f, slot);
    hide Handle;
    hide FloorOk;
    hide FlightOk;
    hide Everywhere;
    TurnInNumbers(b.world, c.world, s, t, slot);
    assert Share(s.starts, slot) == Share(f.s.starts, slot);
    hide InLedger;
    hide Leaks;
  }

  /** What losing the record of a pass does to one slot, in numbers. */
  lemma AbortInNumbers(w: World, v: World, f: Flight, slot: Slot)
    requires InLedger(w, slot) && Leaks(w, slot) && FlightBalanced(f, slot)
    requires v.limiter == w.limiter && v.past == Lost(w.past, f.p, f.s)
    requires Pulls(v, slot) == Pulls(w, slot) - Tally(f.s.entries, Using(slot)) + Tally(f.p.nodeStatus, Using(slot))
    ensures InLedger(v, slot) && Leaks(v, slot)
  {
    NoneLost(w.past.lostStops, f.s.stops, slot);
    hide Pulls;
    hide Tally;
    assert Share(w.past.lostStarts + f.s.starts, slot) == Share(w.past.lostStarts, slot) + Share(f.s.starts, slot);
    assert Share(w.past.lostStops + f.s.stops, slot) == Share(w.past.lostStops, slot) + Share(f.s.stops, slot);
  }

  lemma AbortInLedger(nm: Namer, b: Floor, key: Key, slot: Slot)
    requires FloorOk(nm, b) && FloorInLedger(b, slot) && CanAbort(b, key)
    ensures FloorInLedger(Aborted(b, key), slot)
  {
    var f, p := b.flights[key], b.world.ppis[key];
    EverywherePut(b.world.ppis, key, p.(nodeStatus := f.p.nodeStatus), Using(slot));
    assert RecordOk(nm, key, b.flights, p) && FlightBalanced(f, slot);
    hide FloorOk;
    hide FlightOk;
    hide Everywhere;
    AbortInNumbers(b.world, Aborted(b, key).world, f, slot);
    hide FlightBalanced;
    hide InLedger;
    hide Leaks;
  }

  lemma FinishInLedger(nm: Namer, b: Floor, key: Key, now: int, slot: Slot)
    requires FloorOk(nm, b) && FloorInLedger(b, slot) && CanFinish(b, key)
    ensures FloorInLedger(Finished(b, key, now), slot)
  {
    var f := b.flights[key];
    assert RecordOk(nm, key, b.flights, b.world.ppis[key]);
    UnchangedEntries(b.world.ppis, key, Concluded(f.p, f.s, now), Using(slot));
    hide FloorOk;
    hide FlightOk;
    hide Everywhere;
    hide FlightBalanced;
  }

  lemma TakeInLedger(b: Floor, key: Key, slot: Slot)
    requires FloorInLedger(b, slot) && CanTake(b, key)
    ensures FloorInLedger(Taken(b, key), slot)
  {
    assert Share(multiset{}, slot) == 0;
    assert FlightBalanced(Taken(b, key).flights[key], slot);
    hide FlightBalanced;
    hide InLedger;
    hide Leaks;
  }

  lemma OtherInLedger(nm: Namer, b: Floor, step: Step, slot: Slot)
    requires FloorOk(nm, b) && FloorInLedger(b, slot) && Allowed(b, step)
    ensures FloorInLedger(Stepped(nm, b, step), slot)
  {
    FloorOkSteps(nm, b, step);
    hide FloorOk;
    hide Apply;
    hide FlightBalanced;
    hide InLedger;
    hide Leaks;
    StepInLedger(nm, b.world, step, slot);
    StepLeaks(nm, b.world, step, slot);
  }

  lemma PerformInLedger(nm: Namer, b: Floor, act: Act, slot: Slot)
    requires FloorOk(nm, b) && FloorInLedger(b, slot)
    ensures FloorInLedger(Perform(nm, b, act), slot)
  {
    hide FloorOk;
    hide FloorInLedger;
    match act
    case Take(k) =>
      if CanTake(b, k) {
        TakeInLedger(b, k, slot);
      }
    case Turn(k, weather) =>
      if CanTurn(b, k) {
        TurnInLedger(nm, b, k, weather, slot);
      }
    case Finish(k, now) =>
      if CanFinish(b, k) {
        FinishInLedger(nm, b, k, now, slot);
      }
    case Abort(k) =>
      if CanAbort(b, k) {
        AbortInLedger(nm, b, k, slot);
      }
    case Other(step) =>
      if Allowed(b, step) {
        OtherInLedger(nm, b, step, slot);
      }
  }

  lemma {:induction false} RunsInLedgerInterleaved(nm: Namer, maxPulls: int, maxPerNode: int, acts: seq<Act>, slot: Slot)
    ensures var b := PerformAll(nm, Open(maxPulls, maxPerNode), acts);
            && FloorOk(nm, b) && b.world.limiter.Fresh() == NewLimiter(maxPulls, maxPerNode)
            && FloorInLedger(b, slot)
  {
    hide Perform;
    if acts != [] {
      var before := acts[..|acts| - 1];
      RunsInLedgerInterleaved(nm, maxPulls, maxPerNode, before, slot);
      hide FloorOk;
      hide FloorInLedger;
      PerformKeepsFloorOk(nm, PerformAll(nm, Open(maxPulls, maxPerNode), before), acts[|acts| - 1]);
      PerformInLedger(nm, PerformAll(nm, Open(maxPulls, maxPerNode), before), acts[|acts| - 1], slot);
    }
  }

  lemma LedgerInNumbers(w: World, slot: Slot)
    requires w.limiter.Valid() && InLedger(w, slot) && Leaks(w, slot)
    ensures Pulls(w, slot) <= (w.past.restarts + 1) * w.limiter.Limit(slot) + Share(w.past.lostStops, slot)
    ensures w.limiter.Held(slot) <= w.limiter.Limit(slot)
  {
    HeldWithinLimit(w.limiter, slot);
    hide Pulls;
    assert (w.past.restarts + 1) * w.limiter.Limit(slot) == w.past.restarts * w.limiter.Limit(slot) + w.limiter.Limit(slot);
  }

  /** The ledger at every moment of every interleaving of passes: counting what each worker has done to its copy so
      far, Pulling entries keep to k + 1 limits after k restarts, up to lost stops; and before the first restart and
      lost stop, every counter is exactly the Pulling entries and the lost starts. */
  lemma InterleavedLedger(nm: Namer, maxPulls: int, maxPerNode: int, acts: seq<Act>, slot: Slot)
    ensures var w := PerformAll(nm, Open(maxPulls, maxPerNode), acts).world;
            var limit := NewLimiter(maxPulls, maxPerNode).Limit(slot);
            && w.limiter.Held(slot) <= Pulls(w, slot) + Share(w.past.lostStarts, slot)
            && Pulls(w, slot) <= (w.past.restarts + 1) * limit + Share(w.past.lostStops, slot)
            && (w.past.restarts == 0 && w.past.lostStops == multiset{} ==>
                  w.limiter.Held(slot) == Pulls(w, slot) + Share(w.past.lostStarts, slot) <= limit)
  {
    hide PerformAll;
    hide Pulls;
    RunsInLedgerInterleaved(nm, maxPulls, maxPerNode, acts, slot);
    var w := PerformAll(nm, Open(maxPulls, maxPerNode), acts).world;
    hide RecordOk;
    hide FlightBalanced;
    LedgerInNumbers(w, slot);
    assert w.limiter.Limit(slot) == NewLimiter(maxPulls, maxPerNode).Limit(slot);
  }
}
