/** Which deployments a policy selects, as the deployment controller decides it and as the policy
    controller counts it. */
module Policies {

  datatype Container = Container(name: string, image: string)

  datatype Deployment = Deployment(
    namespace: string,
    name: string,
    labels: map<string, string>,
    containers: seq<Container>,
    initContainers: seq<Container>
  )

  datatype Selector = Selector(matchLabels: map<string, string>, namespaces: seq<string>)

  predicate LabelsMatch(d: Deployment, s: Selector) {
    s.matchLabels != map[] && forall k :: k in s.matchLabels ==> k in d.labels && d.labels[k] == s.matchLabels[k]
  }

  /** What the policy promises: the labels match, in one of the namespaces or anywhere if none is listed. */
  predicate Selected(d: Deployment, s: Selector) {
    LabelsMatch(d, s) && (s.namespaces == [] || d.namespace in s.namespaces)
  }

  /** A deployment is selected exactly when it carries every selected label with the selected value, some label is
      selected, and its namespace is one of those listed, if any is. */
  lemma SelectedExactlyWhen(d: Deployment, s: Selector)
    ensures Selected(d, s) <==>
      && |s.matchLabels| > 0 && s.matchLabels.Items <= d.labels.Items
      && (|s.namespaces| > 0 ==> exists i :: 0 <= i < |s.namespaces| && s.namespaces[i] == d.namespace)
  {
    if s.matchLabels.Items <= d.labels.Items {
      forall k | k in s.matchLabels ensures k in d.labels && d.labels[k] == s.matchLabels[k] {
        assert (k, s.matchLabels[k]) in s.matchLabels.Items;
      }
    }
  }

  /** Every selected label decides: another value, or none, takes a deployment out of the selection, the selected
      value leaves it in, and labels that are not selected make no difference. */
  lemma EveryLabelDecides(d: Deployment, s: Selector, k: string, value: string)
    ensures k in s.matchLabels && Selected(d, s) ==>
              (Selected(d.(labels := d.labels[k := value]), s) <==> value == s.matchLabels[k])
    ensures k in s.matchLabels ==> !Selected(d.(labels := d.labels - {k}), s)
    ensures k !in s.matchLabels ==>
              && (Selected(d.(labels := d.labels[k := value]), s) <==> Selected(d, s))
              && (Selected(d.(labels := d.labels - {k}), s) <==> Selected(d, s))
  {
    if k !in s.matchLabels {
      var with, without := d.(labels := d.labels[k := value]), d.(labels := d.labels - {k});
      forall x | x in s.matchLabels
        ensures (x in with.labels <==> x in d.labels) && (x in without.labels <==> x in d.labels)
        ensures x in d.labels ==> with.labels[x] == d.labels[x] == without.labels[x]
      {
      }
    }
  }

  /** The deployment controller's test. */
  method DeploymentMatchesPolicy(d: Deployment, s: Selector) returns (ok: bool)
    ensures ok == Selected(d, s)
    ensures ok <==> s.matchLabels != map[] && s.matchLabels.Items <= d.labels.Items
                    && (s.namespaces == [] || d.namespace in s.namespaces)
  {
    SelectedExactlyWhen(d, s);
    if |s.namespaces| > 0 {
      var found := false;
      var i := 0;
      while i < |s.namespaces|
        invariant i <= |s.namespaces|
        invariant found <==> d.namespace in s.namespaces[..i]
      {
        if s.namespaces[i] == d.namespace {
          found := true;
          break;
        }
        i := i + 1;
      }
      if !found {
        return false;
      }
    }
    if s.matchLabels == map[] {
      return false;
    }
    return LabelsMatch(d, s);
  }

  // ---------------------------------------------------------------------------------------------
  // The policy controller's count
  // ---------------------------------------------------------------------------------------------

  /** A listing limited to a namespace; the empty name lists every namespace. */
  function Listed(cluster: seq<Deployment>, namespace: string): seq<Deployment> {
    if cluster == [] then []
    else
      var last := cluster[|cluster| - 1];
      Listed(cluster[..|cluster| - 1], namespace) + if namespace == "" || last.namespace == namespace then [last] else []
  }

  function CountMatching(ds: seq<Deployment>, s: Selector): nat {
    if ds == [] then 0 else CountMatching(ds[..|ds| - 1], s) + if LabelsMatch(ds[|ds| - 1], s) then 1 else 0
  }

  function CountOver(cluster: seq<Deployment>, s: Selector, namespaces: seq<string>): nat {
    if namespaces == [] then 0
    else CountOver(cluster, s, namespaces[..|namespaces| - 1]) + CountMatching(Listed(cluster, namespaces[|namespaces| - 1]), s)
  }

  /** How many deployments of the cluster the policy selects; each is counted once. */
  function CountSelected(cluster: seq<Deployment>, s: Selector): nat {
    if cluster == [] then 0
    else CountSelected(cluster[..|cluster| - 1], s) + if Selected(cluster[|cluster| - 1], s) then 1 else 0
  }

  method ListDeployments(cluster: seq<Deployment>, namespace: string) returns (ds: seq<Deployment>)
    ensures ds == Listed(cluster, namespace)
  {
    ds := [];
    var i := 0;
    while i < |cluster|
      invariant i <= |cluster| && ds == Listed(cluster[..i], namespace)
    {
      assert cluster[..i + 1][..i] == cluster[..i];
      if namespace == "" || cluster[i].namespace == namespace {
        ds := ds + [cluster[i]];
      }
      i := i + 1;
    }
    assert cluster[..|cluster|] == cluster;
  }

  /** The nested loop, for a cluster that does not change meanwhile; failing names a namespace whose listing
      fails. */
  method CountMatchingDeployments(cluster: seq<Deployment>, s: Selector, failing: set<string>) returns (ok: bool, count: int)
    ensures ok <==> forall n :: n in (if s.namespaces == [] then [""] else s.namespaces) ==> n !in failing
    ensures ok ==> count == CountOver(cluster, s, if s.namespaces == [] then [""] else s.namespaces)
    ensures !ok ==> count == 0
  {
    hide Listed;
    hide LabelsMatch;
    count := 0;
    var namespaces := s.namespaces;
    if |namespaces| == 0 {
      namespaces := [""];
    }
    var i := 0;
    while i < |namespaces|
      invariant i <= |namespaces| && count == CountOver(cluster, s, namespaces[..i])
      invariant forall j :: 0 <= j < i ==> namespaces[j] !in failing
    {
      if namespaces[i] in failing {
        assert namespaces[i] in namespaces;
        return false, 0;
      }
      var ds := ListDeployments(cluster, namespaces[i]);
      assert namespaces[..i + 1][..i] == namespaces[..i];
      var j := 0;
      ghost var before := count;
      while j < |ds|
        invariant j <= |ds| && count == before + CountMatching(ds[..j], s)
      {
        assert ds[..j + 1][..j] == ds[..j];
        if LabelsMatch(ds[j], s) {
          count := count + 1;
        }
        j := j + 1;
      }
      assert ds[..|ds|] == ds;
      i := i + 1;
    }
    assert namespaces[..|namespaces|] == namespaces;
    return true, count;
  }

  // ---------------------------------------------------------------------------------------------
  // When the two agree
  // ---------------------------------------------------------------------------------------------

  /** How often the namespaces in the list cover one namespace. */
  function Cover(namespaces: seq<string>, namespace: string): nat {
    if namespaces == [] then 0
    else
      var last := namespaces[|namespaces| - 1];
      Cover(namespaces[..|namespaces| - 1], namespace) + if last == "" || last == namespace then 1 else 0
  }

  /** Deployments weighted by how often the list covers their namespace. */
  function CountCovered(cluster: seq<Deployment>, s: Selector, namespaces: seq<string>): nat {
    if cluster == [] then 0
    else
      var last := cluster[|cluster| - 1];
      CountCovered(cluster[..|cluster| - 1], s, namespaces) + if LabelsMatch(last, s) then Cover(namespaces, last.namespace) else 0
  }

  lemma CountMatchingOneMore(ds: seq<Deployment>, d: Deployment, s: Selector)
    ensures CountMatching(ds + [d], s) == CountMatching(ds, s) + if LabelsMatch(d, s) then 1 else 0
  {
    assert (ds + [d])[..|ds|] == ds;
  }

  lemma CoverOneMore(namespaces: seq<string>, n: string, m: string)
    ensures Cover(namespaces + [n], m) == Cover(namespaces, m) + if n == "" || n == m then 1 else 0
  {
    assert (namespaces + [n])[..|namespaces|] == namespaces;
  }

  lemma {:induction false} CountListed(cluster: seq<Deployment>, s: Selector, namespaces: seq<string>, n: string)
    ensures CountCovered(cluster, s, namespaces + [n])
         == CountCovered(cluster, s, namespaces) + CountMatching(Listed(cluster, n), s)
  {
    hide LabelsMatch;
    hide Cover;
    if cluster != [] {
      var before, last := cluster[..|cluster| - 1], cluster[|cluster| - 1];
      CountListed(before, s, namespaces, n);
      CoverOneMore(namespaces, n, last.namespace);
      if n == "" || last.namespace == n {
        CountMatchingOneMore(Listed(before, n), last, s);
      } else {
        assert Listed(cluster, n) == Listed(before, n);
      }
    }
  }

  lemma {:induction false} CountCoveredNone(cluster: seq<Deployment>, s: Selector)
    ensures CountCovered(cluster, s, []) == 0
  {
    if cluster != [] {
      CountCoveredNone(cluster[..|cluster| - 1], s);
    }
  }

  /** The loop over namespaces counts each deployment as often as the list covers its namespace. */
  lemma {:induction false} CountOverIsCovered(cluster: seq<Deployment>, s: Selector, namespaces: seq<string>)
    ensures CountOver(cluster, s, namespaces) == CountCovered(cluster, s, namespaces)
  {
    if namespaces == [] {
      CountCoveredNone(cluster, s);
    } else {
      var before, n := namespaces[..|namespaces| - 1], namespaces[|namespaces| - 1];
      CountOverIsCovered(cluster, s, before);
      CountListed(cluster, s, before, n);
      assert before + [n] == namespaces;
    }
  }

  predicate CleanList(namespaces: seq<string>) {
    "" !in namespaces && forall i, j :: 0 <= i < j < |namespaces| ==> namespaces[i] != namespaces[j]
  }

  lemma {:induction false} CleanCover(namespaces: seq<string>, n: string)
    requires CleanList(namespaces)
    ensures Cover(namespaces, n) == if n in namespaces then 1 else 0
  {
    if namespaces != [] {
      var before := namespaces[..|namespaces| - 1];
      assert forall i :: 0 <= i < |before| ==> before[i] == namespaces[i];
      CleanCover(before, n);
    }
  }

  lemma {:induction false} CountsAgreeWhenClean(cluster: seq<Deployment>, s: Selector)
    requires CleanList(s.namespaces)
    ensures CountOver(cluster, s, if s.namespaces == [] then [""] else s.namespaces) == CountSelected(cluster, s)
  {
    var namespaces := if s.namespaces == [] then [""] else s.namespaces;
    CountOverIsCovered(cluster, s, namespaces);
    CoveredIsSelected(cluster, s, namespaces);
  }

  lemma {:induction false} CoveredIsSelected(cluster: seq<Deployment>, s: Selector, namespaces: seq<string>)
    requires CleanList(s.namespaces) && namespaces == if s.namespaces == [] then [""] else s.namespaces
    ensures CountCovered(cluster, s, namespaces) == CountSelected(cluster, s)
  {
    if cluster != [] {
      CoveredIsSelected(cluster[..|cluster| - 1], s, namespaces);
      if s.namespaces == [] {
        assert namespaces[..0] == [];
      } else {
        CleanCover(namespaces, cluster[|cluster| - 1].namespace);
      }
    }
  }

  /** A list that is not clean covers some namespace twice, or one that it does not name. */
  lemma {:induction false} UncleanCover(namespaces: seq<string>) returns (n: string)
    requires !CleanList(namespaces)
    ensures n in namespaces ==> Cover(namespaces, n) >= 2
    ensures n !in namespaces ==> Cover(namespaces, n) >= 1
  {
    if i, j :| 0 <= i < j < |namespaces| && namespaces[i] == namespaces[j] {
      n := namespaces[i];
      CoverAtLeast(namespaces, n, i, j);
    } else {
      n := Unnamed(namespaces);
      var i :| 0 <= i < |namespaces| && namespaces[i] == "";
      CoverOnce(namespaces, n, i);
    }
  }

  lemma {:induction false} CoverOnce(namespaces: seq<string>, n: string, i: nat)
    requires i < |namespaces| && (namespaces[i] == n || namespaces[i] == "")
    ensures Cover(namespaces, n) >= 1
  {
    if i < |namespaces| - 1 {
      CoverOnce(namespaces[..|namespaces| - 1], n, i);
    }
  }

  lemma {:induction false} CoverAtLeast(namespaces: seq<string>, n: string, i: nat, j: nat)
    requires i < j < |namespaces| && namespaces[i] == n == namespaces[j]
    ensures Cover(namespaces, n) >= 2
  {
    if j < |namespaces| - 1 {
      CoverAtLeast(namespaces[..|namespaces| - 1], n, i, j);
    } else {
      CoverOnce(namespaces[..|namespaces| - 1], n, i);
    }
  }

  /** A namespace the list does not name: longer than any in it. */
  function Unnamed(namespaces: seq<string>): (n: string)
    ensures n !in namespaces && forall m :: m in namespaces ==> |m| < |n|
  {
    if namespaces == [] then "x"
    else
      var n := Unnamed(namespaces[1..]);
      if |namespaces[0]| < |n| then n else namespaces[0] + "x"
  }

  /** Policy count agreement: for a selector with labels, the count equals the number of selected deployments
      in every cluster exactly when its namespace list has no duplicate and no empty name. */
  lemma CountsAgreeExactlyWhen(s: Selector)
    requires s.matchLabels != map[]
    ensures CleanList(s.namespaces) <==>
      forall cluster :: CountOver(cluster, s, if s.namespaces == [] then [""] else s.namespaces) == CountSelected(cluster, s)
  {
    if CleanList(s.namespaces) {
      forall cluster ensures CountOver(cluster, s, if s.namespaces == [] then [""] else s.namespaces) == CountSelected(cluster, s) {
        CountsAgreeWhenClean(cluster, s);
      }
    } else {
      var n := UncleanCover(s.namespaces);
      var cluster := [Deployment(n, "d", s.matchLabels, [], [])];
      CountOverIsCovered(cluster, s, s.namespaces);
      assert cluster[..0] == [];
      assert CountOver(cluster, s, s.namespaces) != CountSelected(cluster, s);
    }
  }

  /** A selector without labels selects and counts nothing, whatever its namespaces. */
  lemma {:induction false} NoLabelsCountNothing(cluster: seq<Deployment>, s: Selector)
    requires s.matchLabels == map[]
    ensures CountSelected(cluster, s) == 0 == CountOver(cluster, s, if s.namespaces == [] then [""] else s.namespaces)
  {
    CountOverIsCovered(cluster, s, if s.namespaces == [] then [""] else s.namespaces);
    NoLabelsCovered(cluster, s, if s.namespaces == [] then [""] else s.namespaces);
  }

  lemma {:induction false} NoLabelsCovered(cluster: seq<Deployment>, s: Selector, namespaces: seq<string>)
    requires s.matchLabels == map[]
    ensures CountSelected(cluster, s) == 0 == CountCovered(cluster, s, namespaces)
  {
    if cluster != [] {
      NoLabelsCovered(cluster[..|cluster| - 1], s, namespaces);
    }
  }
}
