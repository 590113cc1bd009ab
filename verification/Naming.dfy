/** Names built by hashing and cut to the 63 characters Kubernetes allows
    (internal/puller/job.go and internal/controller/deployment_controller.go). */
module Naming {

  /** The first eight hex characters of SHA-256, as an unspecified function. */
  type Digest = f: string -> string | forall s :: |f(s)| == 8 witness (s: string) => "00000000"

  const MAX_NAME := 63
  const JOB_NAME_PREFIX := "kwarm-pull"

  function Clip(name: string): string {
    if |name| > MAX_NAME then name[..MAX_NAME] else name
  }

  function JobName(h: Digest, ppi: string, node: string): string {
    Clip(JOB_NAME_PREFIX + "-" + ppi + "-" + h(node))
  }

  function PrePullImageName(h: Digest, deployment: string, image: string): string {
    Clip(deployment + "-" + h(image))
  }

  lemma NamesFit(h: Digest, a: string, b: string)
    ensures |JobName(h, a, b)| <= 63 && |PrePullImageName(h, a, b)| <= 63
    ensures JobName(h, a, b)[..11] == "kwarm-pull-"
  {
  }

  /** What is left of a name once the last nine characters, a dash and a hash, are taken off. */
  function Stem(name: string): string {
    if |name| < 9 then "" else name[..|name| - 9]
  }

  function Tail(name: string): string {
    if |name| < 8 then "" else name[|name| - 8..]
  }

  lemma StemAndTail(stem: string, tail: string)
    requires |tail| == 8
    ensures Stem(stem + "-" + tail) == stem && Tail(stem + "-" + tail) == tail
  {
    assert (stem + "-" + tail)[..|stem|] == stem;
    assert (stem + "-" + tail)[|stem| + 1..] == tail;
  }

  /** A job name of a short PrePullImage name gives both parts back. */
  lemma JobNameDecodes(h: Digest, ppi: string, node: string)
    requires |ppi| <= 43
    ensures Stem(JobName(h, ppi, node)) == JOB_NAME_PREFIX + "-" + ppi
    ensures Stem(JobName(h, ppi, node))[11..] == ppi
    ensures Tail(JobName(h, ppi, node)) == h(node)
  {
    StemAndTail(JOB_NAME_PREFIX + "-" + ppi, h(node));
    assert (JOB_NAME_PREFIX + "-" + ppi)[11..] == ppi;
  }

  /** Short PrePullImage names share a job name only when both names and both node hashes agree. */
  lemma ShortNamesCollideOnlyWhenEqual(h: Digest, p1: string, n1: string, p2: string, n2: string)
    requires |p1| <= 43 && |p2| <= 43
    ensures JobName(h, p1, n1) == JobName(h, p2, n2) <==> p1 == p2 && h(n1) == h(n2)
  {
    JobNameDecodes(h, p1, n1);
    JobNameDecodes(h, p2, n2);
  }

  /** How many hash characters survive the cut. */
  function Surviving(room: int): nat {
    if room < 0 then 0 else if room > 8 then 8 else room
  }

  /** Two texts of one length that share everything but their tails, once cut, differ exactly when the
      surviving parts of the tails differ. */
  lemma ClippedTails(stem: string, a: string, b: string)
    requires |a| == |b| == 8
    ensures Clip(stem + a) == Clip(stem + b)
       <==> a[..Surviving(MAX_NAME - |stem|)] == b[..Surviving(MAX_NAME - |stem|)]
  {
    var k := Surviving(MAX_NAME - |stem|);
    if |stem| >= MAX_NAME {
      assert Clip(stem + a) == stem[..MAX_NAME] == Clip(stem + b);
    } else {
      assert Clip(stem + a) == stem + a[..k];
      assert Clip(stem + b) == stem + b[..k];
      assert (stem + a[..k])[|stem|..] == a[..k];
      assert (stem + b[..k])[|stem|..] == b[..k];
    }
  }

  /** For every length of PrePullImage name, exactly when two of its nodes share a job: when the hash
      characters that survive the cut agree. From 51 characters on, that is always. */
  lemma NodesShareAJobExactlyWhen(h: Digest, ppi: string, n1: string, n2: string)
    ensures JobName(h, ppi, n1) == JobName(h, ppi, n2)
       <==> h(n1)[..Surviving(51 - |ppi|)] == h(n2)[..Surviving(51 - |ppi|)]
  {
    ClippedTails(JOB_NAME_PREFIX + "-" + ppi + "-", h(n1), h(n2));
  }

  /** For every length of deployment name, exactly when two of its images share a PrePullImage. */
  lemma ImagesShareAPrePullImageExactlyWhen(h: Digest, deployment: string, i1: string, i2: string)
    ensures PrePullImageName(h, deployment, i1) == PrePullImageName(h, deployment, i2)
       <==> h(i1)[..Surviving(62 - |deployment|)] == h(i2)[..Surviving(62 - |deployment|)]
  {
    ClippedTails(deployment + "-", h(i1), h(i2));
  }

  /** The job name of a pull that a deployment caused. */
  function PullName(h: Digest, deployment: string, image: string, node: string): string {
    JobName(h, PrePullImageName(h, deployment, image), node)
  }

  /** Through both controllers: deployments with names of at most 34 characters give distinct jobs to
      distinct triples of deployment, image hash and node hash. */
  lemma PullNamesOfShortDeployments(h: Digest, d1: string, i1: string, n1: string, d2: string, i2: string, n2: string)
    requires |d1| <= 34 && |d2| <= 34
    ensures PullName(h, d1, i1, n1) == PullName(h, d2, i2, n2)
       <==> d1 == d2 && h(i1) == h(i2) && h(n1) == h(n2)
  {
    StemAndTail(d1, h(i1));
    StemAndTail(d2, h(i2));
    ShortNamesCollideOnlyWhenEqual(h, PrePullImageName(h, d1, i1), n1, PrePullImageName(h, d2, i2), n2);
  }
}
