/** The deployment controller: image changes are found against an annotation on the deployment, turned into
    PrePullImages, and then recorded in the annotation (internal/controller/deployment_controller.go). */
module Detector {
  import opened Naming
  import opened Cluster
  import opened Policies
  import opened System
  import opened Controller

  type Images = map<string, string>

  /** The last-images annotation. Its JSON text is either readable as a map or not. */
  datatype Annotation = Absent | Unreadable | Recorded(images: Images)

  // ---------------------------------------------------------------------------------------------
  // Extraction
  // ---------------------------------------------------------------------------------------------

  /** All containers under the keys the controller gives them, in the order it goes through them. */
  function Pairs(d: Deployment): seq<Container> {
    d.containers + seq(|d.initContainers|, i requires 0 <= i < |d.initContainers| =>
                         Container("init-" + d.initContainers[i].name, d.initContainers[i].image))
  }

  function Gather(cs: seq<Container>): Images {
    if cs == [] then map[] else Gather(cs[..|cs| - 1])[cs[|cs| - 1].name := cs[|cs| - 1].image]
  }

  function Current(d: Deployment): Images {
    Gather(Pairs(d))
  }

  lemma GatherOneMore(cs: seq<Container>, i: nat)
    requires i < |cs|
    ensures Gather(cs[..i + 1]) == Gather(cs[..i])[cs[i].name := cs[i].image]
  {
    assert cs[..i + 1][..i] == cs[..i];
  }

  method ExtractImages(d: Deployment) returns (images: Images)
    ensures images == Current(d)
  {
    hide Gather;
    ghost var pairs := Pairs(d);
    images := map[];
    assert images == Gather(pairs[..0]) by {
      GatherNone(pairs);
    }
    var i := 0;
    while i < |d.containers|
      invariant i <= |d.containers| && images == Gather(pairs[..i])
    {
      GatherOneMore(pairs, i);
      images := images[d.containers[i].name := d.containers[i].image];
      i := i + 1;
    }
    var j := 0;
    while j < |d.initContainers|
      invariant j <= |d.initContainers| && images == Gather(pairs[..i + j])
    {
      GatherOneMore(pairs, i + j);
      images := images["init-" + d.initContainers[j].name := d.initContainers[j].image];
      j := j + 1;
    }
    assert pairs[..i + j] == pairs;
  }

  lemma GatherNone(cs: seq<Container>)
    ensures Gather(cs[..0]) == map[]
  {
  }

  /** Every container's image ends up under its key exactly when no two containers share a key and differ in
      image; a container named init-x and an init container named x do share one. */
  lemma {:induction false} GatherIsCompleteExactlyWhen(cs: seq<Container>)
    ensures Gather(cs).Keys == set i | 0 <= i < |cs| :: cs[i].name
    ensures (forall i :: 0 <= i < |cs| ==> Gather(cs)[cs[i].name] == cs[i].image)
       <==> (forall i, j :: 0 <= i < j < |cs| && cs[i].name == cs[j].name ==> cs[i].image == cs[j].image)
  {
    GatherKeys(cs);
    if forall i, j :: 0 <= i < j < |cs| && cs[i].name == cs[j].name ==> cs[i].image == cs[j].image {
      GatherComplete(cs);
    }
  }

  lemma {:induction false} GatherKeys(cs: seq<Container>)
    ensures Gather(cs).Keys == set i | 0 <= i < |cs| :: cs[i].name
  {
    if cs != [] {
      var before := cs[..|cs| - 1];
      GatherKeys(before);
      assert forall i :: 0 <= i < |cs| ==> cs[i].name == if i < |before| then before[i].name else cs[|cs| - 1].name;
    }
  }

  lemma {:induction false} GatherComplete(cs: seq<Container>)
    requires forall i, j :: 0 <= i < j < |cs| && cs[i].name == cs[j].name ==> cs[i].image == cs[j].image
    ensures forall i :: 0 <= i < |cs| ==> cs[i].name in Gather(cs) && Gather(cs)[cs[i].name] == cs[i].image
  {
    if cs != [] {
      var before := cs[..|cs| - 1];
      GatherComplete(before);
      forall i | 0 <= i < |cs| ensures cs[i].name in Gather(cs) && Gather(cs)[cs[i].name] == cs[i].image {
        assert i < |before| ==> before[i] == cs[i];
      }
    }
  }

  /** The names of the containers of a pod, and those of its init containers, are distinct. */
  predicate NamesDistinct(d: Deployment) {
    && (forall i, j :: 0 <= i < j < |d.containers| ==> d.containers[i].name != d.containers[j].name)
    && (forall i, j :: 0 <= i < j < |d.initContainers| ==> d.initContainers[i].name != d.initContainers[j].name)
  }

  function InitKey(name: string): string {
    "init-" + name
  }

  predicate Holds(images: Images, key: string, image: string) {
    key in images && images[key] == image
  }

  /** No init container takes the key of the container away for another image. */
  predicate KeepsKey(d: Deployment, c: Container) {
    forall j :: 0 <= j < |d.initContainers| && InitKey(d.initContainers[j].name) == c.name ==> d.initContainers[j].image == c.image
  }

  /** What extraction yields for a deployment: a key for each container, one with prefix for each init container, and
      no other; always the images of all init containers; and the image of a container exactly when no init container
      with another image has the container's name once the prefix is put before. */
  lemma ExtractsEveryImageExactlyWhen(d: Deployment)
    requires NamesDistinct(d)
    ensures forall k :: k in Current(d) <==>
              || (exists i :: 0 <= i < |d.containers| && k == d.containers[i].name)
              || (exists j :: 0 <= j < |d.initContainers| && k == InitKey(d.initContainers[j].name))
    ensures forall c :: c in d.initContainers ==> Holds(Current(d), InitKey(c.name), c.image)
    ensures forall c :: c in d.containers ==> (Holds(Current(d), c.name, c.image) <==> KeepsKey(d, c))
  {
    hide Current;
    ExtractedKeys(d);
    forall c | c in d.initContainers ensures Holds(Current(d), InitKey(c.name), c.image) {
      var j :| 0 <= j < |d.initContainers| && d.initContainers[j] == c;
      InitImageExtracted(d, j);
    }
    forall c | c in d.containers ensures Holds(Current(d), c.name, c.image) <==> KeepsKey(d, c) {
      var i :| 0 <= i < |d.containers| && d.containers[i] == c;
      ImageExtracted(d, i);
    }
  }

  lemma ExtractedKeys(d: Deployment)
    ensures forall k :: k in Current(d) <==>
              || (exists i :: 0 <= i < |d.containers| && k == d.containers[i].name)
              || (exists j :: 0 <= j < |d.initContainers| && k == InitKey(d.initContainers[j].name))
  {
    hide Gather;
    var cs, n := Pairs(d), |d.containers|;
    GatherKeys(cs);
    assert forall i :: 0 <= i < n ==> cs[i].name == d.containers[i].name;
    forall k | k in Current(d)
      ensures (exists i :: 0 <= i < n && k == d.containers[i].name)
              || (exists j :: 0 <= j < |d.initContainers| && k == InitKey(d.initContainers[j].name))
    {
      var m :| 0 <= m < |cs| && cs[m].name == k;
      if m >= n {
        assert k == InitKey(d.initContainers[m - n].name);
      }
    }
    forall j | 0 <= j < |d.initContainers| ensures InitKey(d.initContainers[j].name) in Current(d) {
      assert cs[n + j].name == InitKey(d.initContainers[j].name);
    }
  }

  lemma InitImageExtracted(d: Deployment, j: nat)
    requires NamesDistinct(d) && j < |d.initContainers|
    ensures Holds(Current(d), InitKey(d.initContainers[j].name), d.initContainers[j].image)
  {
    hide Gather;
    var cs, n := Pairs(d), |d.containers|;
    forall m | n + j < m < |cs| ensures cs[m].name != cs[n + j].name {
      DifferentAfterPrefix(d.initContainers[j].name, d.initContainers[m - n].name);
    }
    GatherLast(cs, n + j);
  }

  lemma ImageExtracted(d: Deployment, i: nat)
    requires NamesDistinct(d) && i < |d.containers|
    ensures var c := d.containers[i]; Holds(Current(d), c.name, c.image) <==> KeepsKey(d, c)
  {
    hide Gather;
    var cs, n, c := Pairs(d), |d.containers|, d.containers[i];
    if j :| 0 <= j < |d.initContainers| && InitKey(d.initContainers[j].name) == c.name {
      InitImageExtracted(d, j);
      forall m | 0 <= m < |d.initContainers| && InitKey(d.initContainers[m].name) == c.name ensures m == j {
        if d.initContainers[m].name != d.initContainers[j].name {
          DifferentAfterPrefix(d.initContainers[m].name, d.initContainers[j].name);
        }
      }
    } else {
      forall m | i < m < |cs| ensures cs[m].name != cs[i].name {
        assert m >= n ==> cs[m].name == InitKey(d.initContainers[m - n].name);
      }
      GatherLast(cs, i);
    }
  }

  lemma DifferentAfterPrefix(a: string, b: string)
    requires a != b
    ensures InitKey(a) != InitKey(b)
  {
    assert InitKey(a)[5..] == a && InitKey(b)[5..] == b;
  }

  /** The last container under a key decides. */
  lemma {:induction false} GatherLast(cs: seq<Container>, i: nat)
    requires i < |cs| && forall j :: i < j < |cs| ==> cs[j].name != cs[i].name
    ensures cs[i].name in Gather(cs) && Gather(cs)[cs[i].name] == cs[i].image
  {
    if i < |cs| - 1 {
      GatherLast(cs[..|cs| - 1], i);
    }
  }

  // ---------------------------------------------------------------------------------------------
  // Comparison
  // ---------------------------------------------------------------------------------------------

  /** A nil map reads like an empty one. */
  function Known(a: Annotation): Images {
    if a.Recorded? then a.images else map[]
  }

  predicate Changed(last: Images, current: Images, k: string) {
    k in current && (k !in last || last[k] != current[k])
  }

  function ChangedKeys(last: Images, current: Images): set<string> {
    set k | k in current && Changed(last, current, k)
  }

  /** images lists the current image of every changed key, one entry a key, in some order. */
  ghost predicate ListsChanges(images: seq<string>, last: Images, current: Images) {
    exists keys: seq<string> :: ListsVia(images, keys, last, current)
  }

  ghost predicate ListsVia(images: seq<string>, keys: seq<string>, last: Images, current: Images) {
    && |keys| == |images|
    && (forall k :: k in keys <==> k in ChangedKeys(last, current))
    && (forall i, j :: 0 <= i < j < |keys| ==> keys[i] != keys[j])
    && (forall i :: 0 <= i < |keys| ==> keys[i] in current && images[i] == current[keys[i]])
  }

  method FindChangedImages(last: Option<Images>, current: Images) returns (changed: seq<string>)
    ensures ListsChanges(changed, if last.Some? then last.value else map[], current)
    ensures changed == [] <==> ChangedKeys(if last.Some? then last.value else map[], current) == {}
  {
    ghost var known := if last.Some? then last.value else map[];
    ghost var keys: seq<string> := [];
    changed := [];
    var rest := current.Keys;
    while rest != {}
      invariant rest <= current.Keys
      invariant |keys| == |changed|
      invariant forall k :: k in keys <==> k in ChangedKeys(known, current) && k !in rest
      invariant forall i, j :: 0 <= i < j < |keys| ==> keys[i] != keys[j]
      invariant forall i :: 0 <= i < |keys| ==> keys[i] in current && changed[i] == current[keys[i]]
      decreases rest
    {
      var k :| k in rest;
      rest := rest - {k};
      if last.None? {
        changed, keys := changed + [current[k]], keys + [k];
      } else if k !in last.value || last.value[k] != current[k] {
        changed, keys := changed + [current[k]], keys + [k];
      }
    }
    assert ListsVia(changed, keys, known, current);
    if changed != [] {
      assert keys[0] in ChangedKeys(known, current);
    } else {
      assert forall k :: k !in ChangedKeys(known, current);
    }
  }

  /** Every current image is either among the listed changes or the last known image of the same key. */
  lemma ListedOrKnown(images: seq<string>, last: Images, current: Images, k: string)
    requires ListsChanges(images, last, current) && k in current
    ensures current[k] in images || (k in last && last[k] == current[k])
  {
    var keys :| ListsVia(images, keys, last, current);
    if Changed(last, current, k) {
      assert k in ChangedKeys(last, current);
      var i :| 0 <= i < |keys| && keys[i] == k;
      assert images[i] == current[k];
    }
  }

  /** And every listed image is the current one of some key that had another image last, or none. */
  lemma ListedIsChanged(images: seq<string>, last: Images, current: Images, i: nat)
    requires ListsChanges(images, last, current) && i < |images|
    ensures exists k :: k in current && current[k] == images[i] && (k in last ==> last[k] != images[i])
  {
    var keys :| ListsVia(images, keys, last, current);
    assert keys[i] in ChangedKeys(last, current);
  }

  /** A deployment without a readable annotation is new: every image is listed, once for each of its keys. */
  lemma UnknownListsEverything(images: seq<string>, a: Annotation, current: Images)
    requires !a.Recorded? && ListsChanges(images, Known(a), current)
    ensures |images| == |current| && forall k :: k in current ==> current[k] in images
  {
    forall k | k in current ensures current[k] in images {
      ListedOrKnown(images, Known(a), current, k);
    }
    hide Known;
    AsManyAsKeys(images, current);
  }

  lemma AsManyAsKeys(images: seq<string>, current: Images)
    requires ListsChanges(images, map[], current)
    ensures |images| == |current|
  {
    var keys :| ListsVia(images, keys, map[], current);
    assert ChangedKeys(map[], current) == current.Keys;
    hide ChangedKeys;
    AllKeysOnce(keys, current.Keys);
  }

  lemma AllKeysOnce(keys: seq<string>, all: set<string>)
    requires forall i, j :: 0 <= i < j < |keys| ==> keys[i] != keys[j]
    requires forall k :: k in keys <==> k in all
    ensures |keys| == |all|
  {
    DistinctSize(keys);
    assert (set k | k in keys) == all;
  }

  lemma {:induction false} DistinctSize(keys: seq<string>)
    requires forall i, j :: 0 <= i < j < |keys| ==> keys[i] != keys[j]
    ensures |set k | k in keys| == |keys|
  {
    if keys != [] {
      var before := keys[..|keys| - 1];
      DistinctSize(before);
      assert (set k | k in keys) == (set k | k in before) + {keys[|keys| - 1]};
    }
  }

  /** The Go comparison: equal lengths, and every entry of a found in b, where a missing key reads as "". */
  function ImagesEqual(a: Images, b: Images): bool {
    |a| == |b| && forall k :: k in a ==> (if k in b then b[k] else "") == a[k]
  }

  lemma {:induction false} SameSizeSubset(a: set<string>, b: set<string>)
    requires a <= b && |a| == |b|
    ensures a == b
  {
    if x :| x in b && x !in a {
      assert a <= b - {x};
      SizeOfSubset(a, b - {x});
    }
  }

  lemma {:induction false} SizeOfSubset(a: set<string>, b: set<string>)
    requires a <= b
    ensures |a| <= |b|
  {
    if x :| x in a {
      SizeOfSubset(a - {x}, b - {x});
    }
  }

  /** imagesEqual is map equality whenever there is no changed image, which is when the controller uses it; in
      general it is, exactly if no empty image of a stands for a key that b lacks. */
  lemma ImagesEqualIsEquality(a: Images, b: Images)
    ensures ChangedKeys(a, b) == {} ==> (ImagesEqual(a, b) <==> a == b)
    ensures a == b <==> ImagesEqual(a, b) && forall k :: k in a && a[k] == "" ==> k in b
  {
    if ImagesEqual(a, b) && ChangedKeys(a, b) == {} {
      forall k | k in b ensures k in a && a[k] == b[k] {
        assert k !in ChangedKeys(a, b);
      }
      SameSizeSubset(b.Keys, a.Keys);
      assert a.Keys == b.Keys;
    }
    if ImagesEqual(a, b) && forall k :: k in a && a[k] == "" ==> k in b {
      SameSizeSubset(a.Keys, b.Keys);
      assert a.Keys == b.Keys;
    }
  }

  /** Two maps with the same number of entries that imagesEqual takes for equal. */
  lemma ImagesEqualCanBeFooled()
    ensures ImagesEqual(map["a" := ""], map["b" := "x"]) && map["a" := ""] != map["b" := "x"]
  {
    assert "a" in map["a" := ""].Keys && "a" !in map["b" := "x"].Keys;
  }

  // ---------------------------------------------------------------------------------------------
  // Making PrePullImages
  // ---------------------------------------------------------------------------------------------

  /** Which API call of one creation fails, if any. */
  datatype Fault = Fine | GetFails | DeleteFails | CreateFails

  datatype Made = Made(ppis: map<Key, PrePullImage>, ok: bool)

  const DEFAULT_MAX_ATTEMPTS := 3

  function Retries(maxAttempts: int): int {
    if maxAttempts == 0 then DEFAULT_MAX_ATTEMPTS else maxAttempts
  }

  function Ensure(ppis: map<Key, PrePullImage>, key: Key, image: string, nodes: seq<string>, maxAttempts: int, f: Fault): Made {
    if f.GetFails? then Made(ppis, false)
    else if key in ppis && ppis[key].image == image then Made(ppis, true)
    else if key in ppis && f.DeleteFails? then Made(ppis, false)
    else
      var rest := Delete(ppis, key);
      if f.CreateFails? || key in rest then Made(rest, false)
      else Made(rest[key := Submitted(image, nodes, Retries(maxAttempts))], true)
  }

  function FaultAt(faults: seq<Fault>, i: nat): Fault {
    if i < |faults| then faults[i] else Fine
  }

  /** The first n images, stopping at the first error. */
  function EnsureAll(name: string -> Key, ppis: map<Key, PrePullImage>, images: seq<string>, nodes: seq<string>,
                     maxAttempts: int, faults: seq<Fault>, n: nat): Made
    requires n <= |images|
    decreases n
  {
    if n == 0 then Made(ppis, true)
    else
      var before := EnsureAll(name, ppis, images, nodes, maxAttempts, faults, n - 1);
      if !before.ok then before
      else Ensure(before.ppis, name(images[n - 1]), images[n - 1], nodes, maxAttempts, FaultAt(faults, n - 1))
  }

  /** The name a deployment gives the PrePullImage of an image. */
  function PpiNamer(h: Digest, d: Deployment): string -> Key {
    (image: string) => Key(d.namespace, PrePullImageName(h, d.name, image))
  }

  predicate Stands(ppis: map<Key, PrePullImage>, key: Key, image: string) {
    key in ppis && ppis[key].image == image
  }

  /** A successful creation leaves a PrePullImage for the image and touches no other name. */
  lemma EnsureLeaves(ppis: map<Key, PrePullImage>, key: Key, image: string, nodes: seq<string>, maxAttempts: int, f: Fault)
    ensures var m := Ensure(ppis, key, image, nodes, maxAttempts, f);
            && (m.ok ==> Stands(m.ppis, key, image))
            && (forall k :: k != key ==> (k in m.ppis <==> k in ppis) && (k in ppis ==> m.ppis[k] == ppis[k]))
  {
  }

  /** Exactly when one creation succeeds: the object can be looked up, and it is already there for the image, or the
      image can be given a new one, for which no object with a finalizer may be in the way, and no call may fail. So an
      object that is in use for another image is never replaced at once: it is marked for deletion, and the creation is
      tried again when it is gone. */
  lemma EnsuredExactlyWhen(ppis: map<Key, PrePullImage>, key: Key, image: string, nodes: seq<string>, maxAttempts: int, f: Fault)
    ensures var m := Ensure(ppis, key, image, nodes, maxAttempts, f);
            && (m.ok <==>
                  && !f.GetFails?
                  && (Stands(ppis, key, image)
                      || (!f.CreateFails? && (key in ppis ==> !ppis[key].finalizer && !f.DeleteFails?))))
            && (f.Fine? && key in ppis && ppis[key].image != image && ppis[key].finalizer ==>
                  m == Made(ppis[key := ppis[key].(deleting := true)], false))
  {
  }

  /** An object that is there for the image is left as it is, running or not, whatever the calls answer. */
  lemma StandingIsLeftAlone(ppis: map<Key, PrePullImage>, key: Key, image: string, nodes: seq<string>, maxAttempts: int, f: Fault)
    requires Stands(ppis, key, image)
    ensures Ensure(ppis, key, image, nodes, maxAttempts, f) == Made(ppis, !f.GetFails?)
  {
  }

  lemma {:induction false} AllStandingAreLeftAlone(name: string -> Key, ppis: map<Key, PrePullImage>, images: seq<string>,
                                                   nodes: seq<string>, maxAttempts: int, faults: seq<Fault>, n: nat)
    requires n <= |images| && forall i :: 0 <= i < n ==> Stands(ppis, name(images[i]), images[i])
    ensures EnsureAll(name, ppis, images, nodes, maxAttempts, faults, n)
         == Made(ppis, forall i :: 0 <= i < n ==> !FaultAt(faults, i).GetFails?)
    decreases n
  {
    if n > 0 {
      AllStandingAreLeftAlone(name, ppis, images, nodes, maxAttempts, faults, n - 1);
      StandingIsLeftAlone(ppis, name(images[n - 1]), images[n - 1], nodes, maxAttempts, FaultAt(faults, n - 1));
    }
  }

  /** What one creation asks of the API, in the steps of the transition system: to delete the object of another image,
      and to submit one with the target nodes, and with three retries if the policy gives no number. */
  function Requests(ppis: map<Key, PrePullImage>, key: Key, image: string, nodes: seq<string>, maxAttempts: int, f: Fault): seq<Step> {
    if f.GetFails? || Stands(ppis, key, image) || (f.DeleteFails? && key in ppis) then []
    else if f.CreateFails? then [RequestDelete(key)]
    else [RequestDelete(key), Submit(key, image, nodes, if maxAttempts == 0 then 3 else maxAttempts)]
  }

  /** One creation is a run of the transition system, so everything proved of runs holds of the objects that the
      deployment controller makes, replaces and withdraws. */
  lemma EnsureIsARun(nm: Namer, w: World, key: Key, image: string, nodes: seq<string>, maxAttempts: int, f: Fault)
    ensures w.(ppis := Ensure(w.ppis, key, image, nodes, maxAttempts, f).ppis)
         == Run(nm, w, Requests(w.ppis, key, image, nodes, maxAttempts, f))
  {
    var steps := Requests(w.ppis, key, image, nodes, maxAttempts, f);
    if steps != [] {
      assert steps[..0] == [];
      assert Run(nm, w, [RequestDelete(key)]) == w.(ppis := Delete(w.ppis, key)) by {
        assert [RequestDelete(key)][..0] == [];
      }
      assert |steps| == 2 ==> steps[..1] == [RequestDelete(key)];
    }
  }

  /** After all creations succeeded, exactly when every changed image has its PrePullImage: when no two
      different images among them share a name. Otherwise a later image has replaced an earlier one. */
  lemma {:induction false} AllStandExactlyWhen(name: string -> Key, ppis: map<Key, PrePullImage>, images: seq<string>,
                                               nodes: seq<string>, maxAttempts: int, faults: seq<Fault>, n: nat)
    requires n <= |images| && EnsureAll(name, ppis, images, nodes, maxAttempts, faults, n).ok
    ensures var m := EnsureAll(name, ppis, images, nodes, maxAttempts, faults, n);
            (forall i :: 0 <= i < n ==> Stands(m.ppis, name(images[i]), images[i]))
            <==> (forall i, j :: 0 <= i < j < n && name(images[i]) == name(images[j]) ==> images[i] == images[j])
    decreases n
  {
    var m := EnsureAll(name, ppis, images, nodes, maxAttempts, faults, n);
    if n > 0 {
      var before := EnsureAll(name, ppis, images, nodes, maxAttempts, faults, n - 1);
      AllStandExactlyWhen(name, ppis, images, nodes, maxAttempts, faults, n - 1);
      EnsureLeaves(before.ppis, name(images[n - 1]), images[n - 1], nodes, maxAttempts, FaultAt(faults, n - 1));
      if forall i, j :: 0 <= i < j < n && name(images[i]) == name(images[j]) ==> images[i] == images[j] {
        forall i | 0 <= i < n ensures Stands(m.ppis, name(images[i]), images[i]) {
          if i < n - 1 && name(images[i]) != name(images[n - 1]) {
            assert Stands(before.ppis, name(images[i]), images[i]);
          }
        }
      }
    }
  }

  /** An input: two images of a deployment whose name has 62 or more characters. Nothing of the hash survives the
      cut, so they share a name, and the second replaces the first although both creations succeed. */
  lemma LongNameLosesImage(h: Digest, d: Deployment, first: string, second: string, nodes: seq<string>, maxAttempts: int)
    requires |d.name| >= 62 && first != second
    ensures var m := EnsureAll(PpiNamer(h, d), map[], [first, second], nodes, maxAttempts, [], 2);
            && m.ok && Stands(m.ppis, PpiNamer(h, d)(second), second) && !Stands(m.ppis, PpiNamer(h, d)(first), first)
  {
    ImagesShareAPrePullImageExactlyWhen(h, d.name, first, second);
    var name, images := PpiNamer(h, d), [first, second];
    var key := name(first);
    assert name(second) == key by {
      assert (d.name + "-" + h(first))[..63] == (d.name + "-" + h(second))[..63];
    }
    assert EnsureAll(name, map[], images, nodes, maxAttempts, [], 0) == Made(map[], true);
    var one := EnsureAll(name, map[], images, nodes, maxAttempts, [], 1);
    assert one == Made(map[key := Submitted(first, nodes, Retries(maxAttempts))], true);
    assert Delete(one.ppis, key) == map[];
  }

  // ---------------------------------------------------------------------------------------------
  // One reconcile
  // ---------------------------------------------------------------------------------------------

  datatype Policy = Policy(selector: Selector, maxAttempts: int)

  /** How the API answers during one reconcile; None stands for an error. */
  datatype Answers = Answers(policies: Option<seq<Policy>>, nodes: Option<seq<string>>, faults: seq<Fault>, writeFails: bool)

  function FirstMatch(policies: seq<Policy>, d: Deployment): Option<Policy> {
    if policies == [] then None
    else if Selected(d, policies[0].selector) then Some(policies[0])
    else FirstMatch(policies[1..], d)
  }

  /** The policy is the first in the list that selects the deployment; there is none exactly when none selects it. */
  lemma {:induction false} FirstMatchIsFirst(policies: seq<Policy>, d: Deployment)
    ensures match FirstMatch(policies, d) {
              case None => forall i :: 0 <= i < |policies| ==> !Selected(d, policies[i].selector)
              case Some(p) => exists i :: 0 <= i < |policies| && p == policies[i] && Selected(d, p.selector)
                                          && forall j :: 0 <= j < i ==> !Selected(d, policies[j].selector)
            }
  {
    hide Selected;
    if policies != [] && !Selected(d, policies[0].selector) {
      FirstMatchIsFirst(policies[1..], d);
      match FirstMatch(policies[1..], d)
      case None =>
        assert forall i :: 0 < i < |policies| ==> policies[i] == policies[1..][i - 1];
      case Some(p) =>
        var i :| 0 <= i < |policies| - 1 && p == policies[1..][i] && forall j :: 0 <= j < i ==> !Selected(d, policies[1..][j].selector);
        assert p == policies[i + 1];
        assert forall j :: 0 < j < i + 1 ==> policies[j] == policies[1..][j - 1];
    }
  }

  datatype Detection = Detection(annotation: Annotation, ppis: map<Key, PrePullImage>, outcome: Outcome)

  function WriteAnnotation(a: Annotation, ppis: map<Key, PrePullImage>, current: Images, fails: bool): Detection {
    if fails then Detection(a, ppis, Error) else Detection(Recorded(current), ppis, Stop)
  }

  /** What happens once a policy has been found, where images are the changed images in the order found. */
  function Act(name: string -> Key, policy: Policy, current: Images, a: Annotation, ppis: map<Key, PrePullImage>,
               x: Answers, images: seq<string>): Detection {
    if images == [] then
      if ImagesEqual(Known(a), current) then Detection(a, ppis, Stop)
      else WriteAnnotation(a, ppis, current, x.writeFails)
    else if x.nodes.None? then Detection(a, ppis, Error)
    else if x.nodes.value == [] then Detection(a, ppis, Stop)
    else
      var m := EnsureAll(name, ppis, images, x.nodes.value, policy.maxAttempts, x.faults, |images|);
      if !m.ok then Detection(a, m.ppis, Error) else WriteAnnotation(a, m.ppis, current, x.writeFails)
  }

  /** One reconcile of a deployment. */
  function Detect(h: Digest, d: Deployment, a: Annotation, ppis: map<Key, PrePullImage>, x: Answers,
                  images: seq<string>): Detection {
    if x.policies.None? then Detection(a, ppis, Error)
    else
      match FirstMatch(x.policies.value, d)
      case None => Detection(a, ppis, Stop)
      case Some(policy) => Act(PpiNamer(h, d), policy, Current(d), a, ppis, x, images)
  }

  /** What the deployment controller may ask of the API for an image: to delete the object under its name, and to submit
      one for it. */
  predicate AskedFor(step: Step, key: Key, image: string, nodes: seq<string>, retries: int) {
    step == RequestDelete(key) || step == Submit(key, image, nodes, retries)
  }

  predicate AllAskedFor(steps: seq<Step>, name: string -> Key, images: seq<string>, nodes: seq<string>, retries: int) {
    forall s :: s in steps ==> exists image :: image in images && AskedFor(s, name(image), image, nodes, retries)
  }

  lemma OneMoreAskedFor(steps: seq<Step>, name: string -> Key, ppis: map<Key, PrePullImage>, images: seq<string>,
                        image: string, nodes: seq<string>, maxAttempts: int, f: Fault)
    requires AllAskedFor(steps, name, images, nodes, if maxAttempts == 0 then 3 else maxAttempts) && image in images
    ensures AllAskedFor(steps + Requests(ppis, name(image), image, nodes, maxAttempts, f), name, images, nodes,
                        if maxAttempts == 0 then 3 else maxAttempts)
  {
    forall s | s in Requests(ppis, name(image), image, nodes, maxAttempts, f)
      ensures AskedFor(s, name(image), image, nodes, if maxAttempts == 0 then 3 else maxAttempts)
    {
    }
  }

  lemma {:induction false} EnsureAllIsARun(nm: Namer, name: string -> Key, w: World, images: seq<string>, nodes: seq<string>,
                                           maxAttempts: int, faults: seq<Fault>, n: nat) returns (steps: seq<Step>)
    requires n <= |images|
    ensures w.(ppis := EnsureAll(name, w.ppis, images, nodes, maxAttempts, faults, n).ppis) == Run(nm, w, steps)
    ensures AllAskedFor(steps, name, images, nodes, if maxAttempts == 0 then 3 else maxAttempts)
    decreases n
  {
    if n == 0 {
      return [];
    }
    hide Run;
    hide Ensure;
    hide Requests;
    hide AllAskedFor;
    steps := EnsureAllIsARun(nm, name, w, images, nodes, maxAttempts, faults, n - 1);
    var before := EnsureAll(name, w.ppis, images, nodes, maxAttempts, faults, n - 1);
    if before.ok {
      var image, f := images[n - 1], FaultAt(faults, n - 1);
      var more := Requests(before.ppis, name(image), image, nodes, maxAttempts, f);
      EnsureIsARun(nm, w.(ppis := before.ppis), name(image), image, nodes, maxAttempts, f);
      RunInParts(nm, w, steps, more);
      OneMoreAskedFor(steps, name, before.ppis, images, image, nodes, maxAttempts, f);
      steps := steps + more;
    }
  }

  /** A reconcile of a deployment changes the PrePullImages as a run of the transition system does, whatever fails: it
      asks for deletions and submissions only, only for changed images, under the names the deployment gives them, and
      submits them with the target nodes listed and the retry limit of the policy found, three if that gives none. */
  lemma DetectIsARun(nm: Namer, h: Digest, d: Deployment, a: Annotation, w: World, x: Answers, images: seq<string>)
    returns (steps: seq<Step>)
    ensures w.(ppis := Detect(h, d, a, w.ppis, x, images).ppis) == Run(nm, w, steps)
    ensures steps != [] ==> x.policies.Some? && FirstMatch(x.policies.value, d).Some? && x.nodes.Some?
    ensures forall s :: s in steps ==>
              var retries := FirstMatch(x.policies.value, d).value.maxAttempts;
              exists image :: image in images && AskedFor(s, Key(d.namespace, PrePullImageName(h, d.name, image)), image,
                                                          x.nodes.value, if retries == 0 then 3 else retries)
  {
    hide Current;
    hide ImagesEqual;
    hide EnsureAll;
    hide AskedFor;
    steps := [];
    if x.policies.Some? && FirstMatch(x.policies.value, d).Some? && images != [] && x.nodes.Some? && x.nodes.value != [] {
      var retries := FirstMatch(x.policies.value, d).value.maxAttempts;
      steps := EnsureAllIsARun(nm, PpiNamer(h, d), w, images, x.nodes.value, retries, x.faults, |images|);
    }
  }

  /** When every changed image has its object, as after an annotation write that failed, a reconcile leaves all objects
      as they are, running or not, whatever the API answers; and if nothing fails the annotation is up to date then. */
  lemma RetryDisturbsNothing(h: Digest, d: Deployment, a: Annotation, ppis: map<Key, PrePullImage>, x: Answers, images: seq<string>)
    requires forall i :: 0 <= i < |images| ==> Stands(ppis, Key(d.namespace, PrePullImageName(h, d.name, images[i])), images[i])
    ensures var r := Detect(h, d, a, ppis, x, images);
            && r.ppis == ppis
            && (x.policies.Some? && FirstMatch(x.policies.value, d).Some? && x.nodes.Some? && x.nodes.value != [] && images != []
                && !x.writeFails && (forall i :: 0 <= i < |images| ==> !FaultAt(x.faults, i).GetFails?) ==>
                  r.annotation == Recorded(Current(d)) && r.outcome.Stop?)
  {
    hide Current;
    hide ImagesEqual;
    if x.policies.Some? && FirstMatch(x.policies.value, d).Some? && x.nodes.Some? && x.nodes.value != [] {
      AllStandingAreLeftAlone(PpiNamer(h, d), ppis, images, x.nodes.value, FirstMatch(x.policies.value, d).value.maxAttempts,
                              x.faults, |images|);
    }
  }

  /** The annotation says what the template says. */
  predicate UpToDate(d: Deployment, a: Annotation) {
    Known(a) == Current(d)
  }

  lemma NoChangesListed(images: seq<string>, last: Images, current: Images)
    requires ListsChanges(images, last, current)
    ensures images == [] <==> ChangedKeys(last, current) == {}
    ensures last == current ==> images == []
  {
    var keys :| ListsVia(images, keys, last, current);
    if images != [] {
      assert keys[0] in ChangedKeys(last, current);
    } else {
      assert forall k :: k !in ChangedKeys(last, current);
    }
    if last == current {
      assert forall k :: k !in ChangedKeys(last, current);
    }
  }

  /** Fixpoint: once the annotation is up to date, reconciling the same template finds no change and writes
      nothing, whatever the API answers. */
  lemma UpToDateIsFixpoint(h: Digest, d: Deployment, a: Annotation, ppis: map<Key, PrePullImage>, x: Answers, images: seq<string>)
    requires UpToDate(d, a) && ListsChanges(images, Known(a), Current(d))
    ensures var r := Detect(h, d, a, ppis, x, images); r.annotation == a && r.ppis == ppis
  {
    hide Current;
    hide PpiNamer;
    hide EnsureAll;
    NoChangesListed(images, Known(a), Current(d));
    ImagesEqualIsEquality(Known(a), Current(d));
  }

  lemma ActRecords(name: string -> Key, policy: Policy, current: Images, a: Annotation, ppis: map<Key, PrePullImage>,
                   x: Answers, images: seq<string>)
    requires ListsChanges(images, Known(a), current)
    requires !Act(name, policy, current, a, ppis, x, images).outcome.Error?
    ensures Known(Act(name, policy, current, a, ppis, x, images).annotation) == current
       <==> Known(a) == current || images == [] || x.nodes.value != []
  {
    NoChangesListed(images, Known(a), current);
    ImagesEqualIsEquality(Known(a), current);
  }

  /** Exactly when a reconcile that returns without error leaves the annotation up to date: when it was so
      before, or a policy matches and there is nothing to pull or somewhere to pull to. In the remaining
      case, changes and no target node, nothing is recorded and nothing asks for a retry. */
  lemma RecordsExactlyWhen(h: Digest, d: Deployment, a: Annotation, ppis: map<Key, PrePullImage>, x: Answers, images: seq<string>)
    requires ListsChanges(images, Known(a), Current(d))
    requires !Detect(h, d, a, ppis, x, images).outcome.Error?
    ensures UpToDate(d, Detect(h, d, a, ppis, x, images).annotation)
       <==> UpToDate(d, a) || (FirstMatch(x.policies.value, d).Some? && (images == [] || x.nodes.value != []))
  {
    hide Act;
    hide Current;
    match FirstMatch(x.policies.value, d)
    case None =>
    case Some(policy) => ActRecords(PpiNamer(h, d), policy, Current(d), a, ppis, x, images);
  }

  /** The creations for all the images succeed. */
  predicate AllMade(name: string -> Key, policy: Policy, ppis: map<Key, PrePullImage>, x: Answers, images: seq<string>) {
    x.nodes.Some? && EnsureAll(name, ppis, images, x.nodes.value, policy.maxAttempts, x.faults, |images|).ok
  }

  /** With a policy found, a reconcile fails only if the annotation is out of date: when it cannot be written, or, if an
      image changed, when the nodes cannot be listed or a creation fails. */
  predicate Trouble(name: string -> Key, policy: Policy, current: Images, a: Annotation, ppis: map<Key, PrePullImage>,
                    x: Answers, images: seq<string>) {
    Known(a) != current
    && if images == [] then x.writeFails
       else x.nodes.None? || (x.nodes.value != [] && (x.writeFails || !AllMade(name, policy, ppis, x, images)))
  }

  lemma ActErrs(name: string -> Key, policy: Policy, current: Images, a: Annotation, ppis: map<Key, PrePullImage>,
                x: Answers, images: seq<string>)
    requires ListsChanges(images, Known(a), current)
    ensures Act(name, policy, current, a, ppis, x, images).outcome.Error?
       <==> Trouble(name, policy, current, a, ppis, x, images)
    ensures var r := Act(name, policy, current, a, ppis, x, images); r.outcome.Stop? || (r.outcome.Error? && r.annotation == a)
  {
    NoChangesListed(images, Known(a), current);
    ImagesEqualIsEquality(Known(a), current);
  }

  /** Exactly when a reconcile returns an error: the policies cannot be listed, or one selects the deployment and there
      is trouble. Then the annotation stays as it is; otherwise nothing asks for another reconcile. */
  lemma DetectErrsExactlyWhen(h: Digest, d: Deployment, a: Annotation, ppis: map<Key, PrePullImage>, x: Answers, images: seq<string>)
    requires ListsChanges(images, Known(a), Current(d))
    ensures Detect(h, d, a, ppis, x, images).outcome.Error? <==>
              x.policies.None?
              || (FirstMatch(x.policies.value, d).Some?
                  && Trouble(PpiNamer(h, d), FirstMatch(x.policies.value, d).value, Current(d), a, ppis, x, images))
    ensures var r := Detect(h, d, a, ppis, x, images); r.outcome.Stop? || (r.outcome.Error? && r.annotation == a)
  {
    hide Act;
    hide Current;
    hide Trouble;
    if x.policies.Some? && FirstMatch(x.policies.value, d).Some? {
      ActErrs(PpiNamer(h, d), FirstMatch(x.policies.value, d).value, Current(d), a, ppis, x, images);
    }
  }

  /** An input: a deployment with one container, whose image no annotation records yet, and no target node. */
  lemma NoNodesRecordsNothing(h: Digest, key: Key, container: Container)
    ensures var d := Deployment(key.namespace, key.name, map["app" := "web"], [container], []);
            var x := Answers(Some([Policy(Selector(map["app" := "web"], []), 3)]), Some([]), [], false);
            && ListsChanges([container.image], Known(Absent), Current(d))
            && Detect(h, d, Absent, map[], x, [container.image]) == Detection(Absent, map[], Stop)
            && !UpToDate(d, Absent)
  {
    var d := Deployment(key.namespace, key.name, map["app" := "web"], [container], []);
    var s := Selector(map["app" := "web"], []);
    assert Pairs(d) == [container];
    assert Gather([container][..0]) == map[];
    assert Current(d) == map[container.name := container.image];
    assert container.name in Current(d).Keys;
    assert ListsVia([container.image], [container.name], map[], Current(d));
    assert "app" in s.matchLabels && Selected(d, s);
  }

  // ---------------------------------------------------------------------------------------------
  // Runs
  // ---------------------------------------------------------------------------------------------

  /** A deployment, its annotation, the PrePullImages, and the history of images for which one was made or
      found. */
  datatype Watch = Watch(d: Deployment, annotation: Annotation, ppis: map<Key, PrePullImage>, ensured: set<string>)

  datatype Event =
    | EditTemplate(containers: seq<Container>, initContainers: seq<Container>)
    | Relabel(labels: map<string, string>)
    | Elsewhere(ppis: map<Key, PrePullImage>)   // whatever others do to the PrePullImages
    | Look(answers: Answers, images: seq<string>)

  /** The images for which a PrePullImage stood, under the name the deployment gives it, right after their own step;
      what others did before counts only if that step was reached. */
  function EnsuredOf(name: string -> Key, ppis: map<Key, PrePullImage>, images: seq<string>, nodes: seq<string>,
                     maxAttempts: int, faults: seq<Fault>): set<string> {
    set i | 0 <= i < |images| && EnsureAll(name, ppis, images, nodes, maxAttempts, faults, i).ok
            && Stands(EnsureAll(name, ppis, images, nodes, maxAttempts, faults, i + 1).ppis, name(images[i]), images[i])
          :: images[i]
  }

  function EnsuredBy(h: Digest, s: Watch, x: Answers, images: seq<string>): set<string> {
    if x.policies.None? || FirstMatch(x.policies.value, s.d).None? || x.nodes.None? || x.nodes.value == [] then {}
    else
      EnsuredOf(PpiNamer(h, s.d), s.ppis, images, x.nodes.value, FirstMatch(x.policies.value, s.d).value.maxAttempts, x.faults)
  }

  /** A look whose list of images is not a list of the changes cannot happen. */
  ghost function Happens(h: Digest, s: Watch, e: Event): Watch {
    match e
    case EditTemplate(cs, ics) => s.(d := s.d.(containers := cs, initContainers := ics))
    case Relabel(labels) => s.(d := s.d.(labels := labels))
    case Elsewhere(ppis) => s.(ppis := ppis)
    case Look(x, images) =>
      if !ListsChanges(images, Known(s.annotation), Current(s.d)) then s
      else
        var r := Detect(h, s.d, s.annotation, s.ppis, x, images);
        s.(annotation := r.annotation, ppis := r.ppis, ensured := s.ensured + EnsuredBy(h, s, x, images))
  }

  ghost function Watched(h: Digest, s: Watch, events: seq<Event>): Watch {
    if events == [] then s else Happens(h, Watched(h, s, events[..|events| - 1]), events[|events| - 1])
  }

  lemma {:induction false} EnsureAllMonotone(name: string -> Key, ppis: map<Key, PrePullImage>, images: seq<string>,
                                             nodes: seq<string>, maxAttempts: int, faults: seq<Fault>, i: nat, n: nat)
    requires i <= n <= |images| && EnsureAll(name, ppis, images, nodes, maxAttempts, faults, n).ok
    ensures EnsureAll(name, ppis, images, nodes, maxAttempts, faults, i).ok
    decreases n
  {
    if i < n {
      EnsureAllMonotone(name, ppis, images, nodes, maxAttempts, faults, i, n - 1);
    }
  }

  /** Everything in the annotation had a PrePullImage made or found for it. */
  predicate Remembers(s: Watch) {
    forall k :: k in Known(s.annotation) ==> Known(s.annotation)[k] in s.ensured
  }

  lemma AllEnsured(name: string -> Key, ppis: map<Key, PrePullImage>, images: seq<string>, nodes: seq<string>,
                   maxAttempts: int, faults: seq<Fault>, image: string)
    requires EnsureAll(name, ppis, images, nodes, maxAttempts, faults, |images|).ok && image in images
    ensures image in EnsuredOf(name, ppis, images, nodes, maxAttempts, faults)
  {
    var i :| 0 <= i < |images| && images[i] == image;
    EnsureAllMonotone(name, ppis, images, nodes, maxAttempts, faults, i, |images|);
    EnsureAllMonotone(name, ppis, images, nodes, maxAttempts, faults, i + 1, |images|);
    var before := EnsureAll(name, ppis, images, nodes, maxAttempts, faults, i);
    EnsureLeaves(before.ppis, name(image), image, nodes, maxAttempts, FaultAt(faults, i));
    assert Stands(EnsureAll(name, ppis, images, nodes, maxAttempts, faults, i + 1).ppis, name(images[i]), images[i]);
  }

  /** When the annotation is rewritten, a PrePullImage has stood for every listed image. */
  lemma RewrittenAfterAll(h: Digest, s: Watch, x: Answers, images: seq<string>)
    requires Detect(h, s.d, s.annotation, s.ppis, x, images).annotation != s.annotation
    ensures Detect(h, s.d, s.annotation, s.ppis, x, images).annotation == Recorded(Current(s.d))
    ensures forall image :: image in images ==> image in EnsuredBy(h, s, x, images)
  {
    hide Current;
    hide PpiNamer;
    hide ImagesEqual;
    hide EnsuredOf;
    hide EnsureAll;
    forall image | image in images ensures image in EnsuredBy(h, s, x, images) {
      AllEnsured(PpiNamer(h, s.d), s.ppis, images, x.nodes.value,
                 FirstMatch(x.policies.value, s.d).value.maxAttempts, x.faults, image);
    }
  }

  lemma LookRemembers(h: Digest, s: Watch, x: Answers, images: seq<string>)
    requires Remembers(s) && ListsChanges(images, Known(s.annotation), Current(s.d))
    ensures Remembers(Happens(h, s, Look(x, images)))
  {
    hide Current;
    hide Detect;
    hide EnsuredBy;
    var t := Happens(h, s, Look(x, images));
    if t.annotation != s.annotation {
      RewrittenAfterAll(h, s, x, images);
      forall k | k in Known(t.annotation) ensures Known(t.annotation)[k] in t.ensured {
        ListedOrKnown(images, Known(s.annotation), Current(s.d), k);
      }
    }
  }

  /** The annotation as a memory: over any run of template edits, label and policy changes, node changes,
      failed API calls and interference with the PrePullImages, every image in the annotation had a
      PrePullImage made or found for it first. */
  lemma {:induction false} AnnotationRemembers(h: Digest, d: Deployment, ppis: map<Key, PrePullImage>, events: seq<Event>)
    ensures Remembers(Watched(h, Watch(d, Absent, ppis, {}), events))
  {
    if events != [] {
      var before := events[..|events| - 1];
      AnnotationRemembers(h, d, ppis, before);
      var s := Watched(h, Watch(d, Absent, ppis, {}), before);
      match events[|events| - 1]
      case Look(x, images) =>
        if ListsChanges(images, Known(s.annotation), Current(s.d)) {
          LookRemembers(h, s, x, images);
        }
      case _ =>
    }
  }

  // ---------------------------------------------------------------------------------------------
  // The reconciler
  // ---------------------------------------------------------------------------------------------

  /** The deployment as stored. */
  class DeploymentRecord {
    const spec: Deployment
    var annotation: Annotation

    constructor (d: Deployment)
      ensures spec == d && annotation == Absent
    {
      spec, annotation := d, Absent;
    }
  }

  class DeploymentReconciler {
    const hash: Digest
    const api: ApiServer

    constructor (hash: Digest, api: ApiServer)
      ensures this.hash == hash && this.api == api
    {
      this.hash, this.api := hash, api;
    }

    method GetMatchingPolicy(policies: seq<Policy>, d: Deployment) returns (policy: Option<Policy>)
      ensures policy == FirstMatch(policies, d)
    {
      var i := 0;
      while i < |policies|
        invariant i <= |policies| && FirstMatch(policies, d) == FirstMatch(policies[i..], d)
      {
        var ok := DeploymentMatchesPolicy(d, policies[i].selector);
        if ok {
          return Some(policies[i]);
        }
        assert policies[i..][1..] == policies[i + 1..];
        i := i + 1;
      }
      return None;
    }

    method CreatePrePullImage(key: Key, image: string, nodes: seq<string>, maxAttempts: int, f: Fault) returns (ok: bool)
      modifies api`ppis
      ensures var m := Ensure(old(api.ppis), key, image, nodes, maxAttempts, f); api.ppis == m.ppis && ok == m.ok
      ensures Stands(old(api.ppis), key, image) ==> api.ppis == old(api.ppis) && ok == !f.GetFails?
      ensures ok ==> Stands(api.ppis, key, image)
      ensures ok && !Stands(old(api.ppis), key, image) ==>
                api.ppis[key] == Submitted(image, nodes, if maxAttempts == 0 then 3 else maxAttempts)
    {
      if f.GetFails? {
        return false;
      }
      if key in api.ppis {
        if api.ppis[key].image == image {
          return true;
        }
        var deleted := api.DeletePpi(key, f.DeleteFails?);
        if !deleted {
          return false;
        }
      }
      var attempts := maxAttempts;
      if attempts == 0 {
        attempts := DEFAULT_MAX_ATTEMPTS;
      }
      ok := api.CreatePpi(key, Submitted(image, nodes, attempts), f.CreateFails?);
    }

    /** The loop over the changed images, which stops at the first error. */
    method CreateAll(d: Deployment, images: seq<string>, nodes: seq<string>, maxAttempts: int, faults: seq<Fault>)
      returns (ok: bool)
      modifies api`ppis
      ensures EnsureAll(PpiNamer(hash, d), old(api.ppis), images, nodes, maxAttempts, faults, |images|) == Made(api.ppis, ok)
    {
      hide PrePullImageName;
      hide Ensure;
      var i := 0;
      while i < |images|
        invariant i <= |images|
        invariant EnsureAll(PpiNamer(hash, d), old(api.ppis), images, nodes, maxAttempts, faults, i) == Made(api.ppis, true)
      {
        var key := Key(d.namespace, PrePullImageName(hash, d.name, images[i]));
        ok := CreatePrePullImage(key, images[i], nodes, maxAttempts, FaultAt(faults, i));
        i := i + 1;
        if !ok {
          FirstErrorStops(PpiNamer(hash, d), old(api.ppis), images, nodes, maxAttempts, faults, i, |images|);
          return false;
        }
      }
      return true;
    }

    method UpdateAnnotation(r: DeploymentRecord, current: Images, fails: bool) returns (ok: bool)
      modifies r
      ensures ok == !fails && r.annotation == if fails then old(r.annotation) else Recorded(current)
    {
      if fails {
        return false;
      }
      r.annotation := Recorded(current);
      return true;
    }

    method Reconcile(r: DeploymentRecord, x: Answers) returns (outcome: Outcome, ghost images: seq<string>)
      modifies r, api`ppis
      ensures ListsChanges(images, Known(old(r.annotation)), Current(r.spec))
      ensures var t := Detect(hash, r.spec, old(r.annotation), old(api.ppis), x, images);
              r.annotation == t.annotation && api.ppis == t.ppis && outcome == t.outcome
    {
      hide Current;
      hide PpiNamer;
      hide ImagesEqual;
      hide EnsureAll;
      hide ListsChanges;
      hide FirstMatch;
      var current := ExtractImages(r.spec);
      var last := if r.annotation.Recorded? then Some(r.annotation.images) else None;
      var changed := FindChangedImages(last, current);
      images := changed;
      if x.policies.None? {
        return Error, images;
      }
      var policy := GetMatchingPolicy(x.policies.value, r.spec);
      if policy.None? {
        return Stop, images;
      }
      if |changed| == 0 {
        if !ImagesEqual(if last.Some? then last.value else map[], current) {
          var written := UpdateAnnotation(r, current, x.writeFails);
          return if written then Stop else Error, images;
        }
        return Stop, images;
      }
      if x.nodes.None? {
        return Error, images;
      }
      if x.nodes.value == [] {
        return Stop, images;
      }
      var ok := CreateAll(r.spec, changed, x.nodes.value, policy.value.maxAttempts, x.faults);
      if !ok {
        return Error, images;
      }
      var written := UpdateAnnotation(r, current, x.writeFails);
      return if written then Stop else Error, images;
    }
  }

  lemma {:induction false} FirstErrorStops(name: string -> Key, ppis: map<Key, PrePullImage>, images: seq<string>,
                                           nodes: seq<string>, maxAttempts: int, faults: seq<Fault>, i: nat, n: nat)
    requires i <= n <= |images| && !EnsureAll(name, ppis, images, nodes, maxAttempts, faults, i).ok
    ensures EnsureAll(name, ppis, images, nodes, maxAttempts, faults, n)
         == EnsureAll(name, ppis, images, nodes, maxAttempts, faults, i)
    decreases n
  {
    if i < n {
      FirstErrorStops(name, ppis, images, nodes, maxAttempts, faults, i, n - 1);
    }
  }
}
