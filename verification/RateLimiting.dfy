/** The two-level counter that bounds concurrent pulls (internal/ratelimiter/ratelimiter.go). */
module RateLimiting {
  import opened Sums

  /** What a limit is about: the whole cluster, or one node. */
  datatype Slot = Whole | OnNode(node: string)

  predicate Covers(s: Slot, node: string) {
    s.Whole? || s.node == node
  }

  /** How many units of slot s one pull on a node takes. */
  function Unit(s: Slot, node: string): nat {
    if Covers(s, node) then 1 else 0
  }

  /** How much of slot s a bag of pulls takes. */
  function Share(bag: multiset<string>, s: Slot): nat {
    match s
    case Whole => |bag|
    case OnNode(n) => bag[n]
  }

  /** The value of a rate limiter; a node without a key has count zero. */
  datatype Limiter = Limiter(maxPulls: int, maxPerNode: int, current: int, perNode: map<string, int>) {
    predicate Valid() {
      && 0 < maxPulls && 0 < maxPerNode
      && 0 <= current <= maxPulls
      && forall n :: n in perNode ==> 1 <= perNode[n] <= maxPerNode
    }

    function Count(node: string): int {
      if node in perNode then perNode[node] else 0
    }

    function Held(s: Slot): int {
      match s
      case Whole => current
      case OnNode(n) => Count(n)
    }

    function Limit(s: Slot): int {
      match s
      case Whole => maxPulls
      case OnNode(_) => maxPerNode
    }

    predicate Grants(node: string) {
      current < maxPulls && Count(node) < maxPerNode
    }

    function Acquire(node: string): Limiter {
      this.(current := current + 1, perNode := perNode[node := Count(node) + 1])
    }

    function Release(node: string): Limiter {
      this.(current := if 0 < current then current - 1 else current,
            perNode := if 1 < Count(node) then perNode[node := Count(node) - 1] else perNode - {node})
    }

    /** The limiter of a freshly started operator. */
    function Fresh(): Limiter {
      this.(current := 0, perNode := map[])
    }
  }

  const DEFAULT_MAX_PULLS := 10
  const DEFAULT_MAX_PER_NODE := 2

  function NewLimiter(maxPulls: int, maxPerNode: int): (l: Limiter)
    ensures l.Valid() && l == l.Fresh()
  {
    Limiter(if maxPulls <= 0 then DEFAULT_MAX_PULLS else maxPulls,
            if maxPerNode <= 0 then DEFAULT_MAX_PER_NODE else maxPerNode, 0, map[])
  }

  /** A slot is granted exactly when neither the cluster nor the node is at its limit, and a grant
      takes one unit of each slot that covers the node and nothing else. */
  lemma AcquireHolds(l: Limiter, node: string, s: Slot)
    requires l.Valid()
    ensures l.Grants(node) <==> forall t :: Covers(t, node) ==> l.Held(t) < l.Limit(t)
    ensures l.Acquire(node).Held(s) == l.Held(s) + Unit(s, node)
    ensures l.Grants(node) ==> l.Acquire(node).Valid()
  {
    if forall t :: Covers(t, node) ==> l.Held(t) < l.Limit(t) {
      assert Covers(Whole, node) && Covers(OnNode(node), node);
    }
  }

  /** A release gives back one unit of each slot that covers the node, but never goes below zero. */
  lemma ReleaseHolds(l: Limiter, node: string, s: Slot)
    requires l.Valid()
    ensures l.Release(node).Valid()
    ensures l.Release(node).Held(s)
         == if l.Held(s) < Unit(s, node) then 0 else l.Held(s) - Unit(s, node)
  {
  }

  /** The failed-start path, which takes a slot and gives it back, leaves the limiter as it was. */
  lemma ReleaseUndoesAcquire(l: Limiter, node: string)
    requires l.Valid()
    ensures l.Acquire(node).Release(node) == l
  {
    if node !in l.perNode {
      assert l.perNode[node := 1] - {node} == l.perNode;
    }
  }

  lemma HeldWithinLimit(l: Limiter, s: Slot)
    requires l.Valid()
    ensures 0 <= l.Held(s) <= l.Limit(s)
  {
  }

  // ---------------------------------------------------------------------------------------------
  // Runs of the limiter: every interleaving of atomic calls, by any number of callers
  // ---------------------------------------------------------------------------------------------

  datatype Call = TryAcquire(node: string) | GiveBack(node: string)

  /** The limiter together with the bag of slots handed out and not yet given back. */
  datatype Desk = Desk(limiter: Limiter, out: multiset<string>)

  function Serve(d: Desk, c: Call): Desk {
    match c
    case TryAcquire(n) =>
      if d.limiter.Grants(n) then Desk(d.limiter.Acquire(n), d.out + multiset{n}) else d
    case GiveBack(n) => Desk(d.limiter.Release(n), d.out - multiset{n})
  }

  function ServeAll(d: Desk, calls: seq<Call>): Desk {
    if calls == [] then d else Serve(ServeAll(d, calls[..|calls| - 1]), calls[|calls| - 1])
  }

  /** Every GiveBack returns a slot that is out at that moment. */
  predicate Honest(d: Desk, calls: seq<Call>) {
    calls == [] ||
    (var before := calls[..|calls| - 1];
     var last := calls[|calls| - 1];
     Honest(d, before) && (last.GiveBack? ==> last.node in ServeAll(d, before).out))
  }

  lemma GiveBackSum(l: Limiter, n: string)
    requires l.Valid() && l.current <= Sum(l.perNode)
    ensures l.Release(n).current <= Sum(l.Release(n).perNode)
  {
    SumNonNegative(l.perNode);
    if l.Count(n) > 1 {
      SumPut(l.perNode, n, l.Count(n) - 1);
    } else if n in l.perNode {
      SumRemove(l.perNode, n);
    } else {
      assert l.perNode - {n} == l.perNode;
    }
  }

  /** Whatever the callers do, the counters stay in range, a node has a key exactly when its count is
      positive, and the cluster counter never exceeds the node counters taken together. */
  lemma {:induction false} AnyInterleavingStaysInRange(maxPulls: int, maxPerNode: int, calls: seq<Call>)
    ensures var l := ServeAll(Desk(NewLimiter(maxPulls, maxPerNode), multiset{}), calls).limiter;
            && l.Valid()
            && l.current <= Sum(l.perNode)
            && l.Fresh() == NewLimiter(maxPulls, maxPerNode)
  {
    if calls != [] {
      var before := calls[..|calls| - 1];
      AnyInterleavingStaysInRange(maxPulls, maxPerNode, before);
      var l := ServeAll(Desk(NewLimiter(maxPulls, maxPerNode), multiset{}), before).limiter;
      match calls[|calls| - 1]
      case TryAcquire(n) => SumPut(l.perNode, n, l.Count(n) + 1);
      case GiveBack(n) => GiveBackSum(l, n);
    }
  }

  /** The counters say exactly which slots are out. */
  ghost predicate Exact(d: Desk) {
    && d.limiter.Valid()
    && (forall s :: d.limiter.Held(s) == Share(d.out, s))
    && d.limiter.current == Sum(d.limiter.perNode)
  }

  lemma TryAcquireIsExact(d: Desk, n: string)
    requires Exact(d)
    ensures Exact(Serve(d, TryAcquire(n)))
  {
    SumPut(d.limiter.perNode, n, d.limiter.Count(n) + 1);
    forall s ensures Serve(d, TryAcquire(n)).limiter.Held(s) == Share(Serve(d, TryAcquire(n)).out, s) {
      AcquireHolds(d.limiter, n, s);
      assert d.limiter.Held(s) == Share(d.out, s);
    }
  }

  lemma GiveBackIsExact(d: Desk, n: string)
    requires Exact(d) && n in d.out
    ensures Exact(Serve(d, GiveBack(n)))
  {
    var l := d.limiter;
    assert l.Held(OnNode(n)) == d.out[n];
    assert l.Held(Whole) == |d.out|;
    if l.Count(n) > 1 {
      SumPut(l.perNode, n, l.Count(n) - 1);
    } else {
      SumRemove(l.perNode, n);
    }
    ReleaseHolds(l, n, Whole);
    forall s ensures l.Release(n).Held(s) == Share(d.out - multiset{n}, s) {
      ReleaseHolds(l, n, s);
      assert l.Held(s) == Share(d.out, s);
    }
  }

  /** When callers give back only what is out, the counters are exactly the slots out, for the cluster
      and for every node at once; so once all are returned the limiter is as good as new. */
  lemma {:induction false} HonestInterleavingIsExact(maxPulls: int, maxPerNode: int, calls: seq<Call>)
    requires Honest(Desk(NewLimiter(maxPulls, maxPerNode), multiset{}), calls)
    ensures var d := ServeAll(Desk(NewLimiter(maxPulls, maxPerNode), multiset{}), calls);
            Exact(d) && (d.out == multiset{} ==> d.limiter == NewLimiter(maxPulls, maxPerNode))
  {
    var d0 := Desk(NewLimiter(maxPulls, maxPerNode), multiset{});
    var d := ServeAll(d0, calls);
    if calls != [] {
      HonestInterleavingIsExact(maxPulls, maxPerNode, calls[..|calls| - 1]);
      var before := ServeAll(d0, calls[..|calls| - 1]);
      match calls[|calls| - 1]
      case TryAcquire(n) => TryAcquireIsExact(before, n);
      case GiveBack(n) => GiveBackIsExact(before, n);
    }
    if d.out == multiset{} {
      AnyInterleavingStaysInRange(maxPulls, maxPerNode, calls);
      ExactAndEmpty(d);
    }
  }

  lemma ExactAndEmpty(d: Desk)
    requires Exact(d) && d.out == multiset{}
    ensures d.limiter == d.limiter.Fresh()
  {
    assert d.limiter.Held(Whole) == 0;
    forall n ensures n !in d.limiter.perNode {
      assert d.limiter.Held(OnNode(n)) == 0;
    }
    assert d.limiter.perNode == map[];
  }

  // ---------------------------------------------------------------------------------------------
  // The object; every method runs under the mutex, so each is one atomic step on the value
  // ---------------------------------------------------------------------------------------------

  class RateLimiter {
    const maxConcurrentPulls: int
    const maxPullsPerNode: int
    var currentPulls: int
    var nodeCurrentPulls: map<string, int>

    ghost function Value(): Limiter
      reads this
    {
      Limiter(maxConcurrentPulls, maxPullsPerNode, currentPulls, nodeCurrentPulls)
    }

    constructor (maxConcurrent: int, maxPerNode: int)
      ensures Value() == NewLimiter(maxConcurrent, maxPerNode)
    {
      var c, n := maxConcurrent, maxPerNode;
      if c <= 0 {
        c := DEFAULT_MAX_PULLS;
      }
      if n <= 0 {
        n := DEFAULT_MAX_PER_NODE;
      }
      maxConcurrentPulls, maxPullsPerNode := c, n;
      currentPulls := 0;
      nodeCurrentPulls := map[];
    }

    method CurrentPullsForNode(nodeName: string) returns (count: int)
      ensures count == Value().Count(nodeName)
    {
      if nodeName in nodeCurrentPulls {
        count := nodeCurrentPulls[nodeName];
      } else {
        count := 0;
      }
    }

    method TryAcquire(nodeName: string) returns (ok: bool)
      requires Value().Valid()
      modifies this
      ensures Value().Valid()
      ensures ok == old(Value().Grants(nodeName))
      ensures Value() == if ok then old(Value().Acquire(nodeName)) else old(Value())
    {
      if currentPulls >= maxConcurrentPulls {
        return false;
      }
      var count := CurrentPullsForNode(nodeName);
      if count >= maxPullsPerNode {
        return false;
      }
      currentPulls := currentPulls + 1;
      nodeCurrentPulls := nodeCurrentPulls[nodeName := count + 1];
      return true;
    }

    method Release(nodeName: string)
      requires Value().Valid()
      modifies this
      ensures Value().Valid()
      ensures Value() == old(Value().Release(nodeName))
    {
      ReleaseHolds(Value(), nodeName, Whole);
      if currentPulls > 0 {
        currentPulls := currentPulls - 1;
      }
      var count := CurrentPullsForNode(nodeName);
      if count > 0 {
        nodeCurrentPulls := nodeCurrentPulls[nodeName := count - 1];
      }
      count := CurrentPullsForNode(nodeName);
      if count <= 0 {
        nodeCurrentPulls := nodeCurrentPulls - {nodeName};
      }
      assert nodeCurrentPulls == old(Value().Release(nodeName)).perNode;
    }
  }
}
