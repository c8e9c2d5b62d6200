/**
 * The conversion loops of `GetPods`, `GetNamespaces` and `GetNodes`: they turn the API's
 * listings into the engine's `Namespace`, `Pod` and `ClusterNode` values.
 */
module Loader {
  import opened Wrappers
  import opened Quantity
  import opened Topology

  function ToContainer(spec: ContainerSpec): Container {
    Container(spec.name, spec.limits, spec.requests)
  }

  /** The containers built from one pod spec, in order. */
  function Convert(specs: seq<ContainerSpec>): (cs: seq<Container>)
    ensures |cs| == |specs|
    ensures forall i :: 0 <= i < |specs| ==> cs[i] == ToContainer(specs[i])
  {
    if |specs| == 0 then [] else Convert(specs[..|specs| - 1]) + [ToContainer(specs[|specs| - 1])]
  }

  /** The containers of source pods 0 .. n-1, concatenated in listing order. */
  function ContainersUpTo(items: seq<PodItem>, n: nat): seq<Container>
    requires n <= |items|
  {
    if n == 0 then [] else ContainersUpTo(items, n - 1) + Convert(items[n - 1].containers)
  }

  /**
   * What `GetPods` produces from a pod listing: one pod per listed pod, with that pod's name
   * and node name, no node link, and the containers of every listed pod up to and including it.
   */
  ghost predicate PodsLoaded(items: seq<PodItem>, pods: seq<Pod>) {
    |pods| == |items| &&
    forall i :: 0 <= i < |items| ==>
      pods[i] == Pod(items[i].name, items[i].nodeName, ContainersUpTo(items, i + 1), None)
  }

  /** The container loop of `GetPods`: append one converted container per spec to the pod's list. */
  method AppendContainers(pod: Pod, specs: seq<ContainerSpec>) returns (grown: Pod)
    ensures grown == pod.(containers := pod.containers + Convert(specs))
  {
    grown := pod;
    for i := 0 to |specs|
      invariant grown == pod.(containers := pod.containers + Convert(specs[..i]))
    {
      assert specs[..i + 1][..i] == specs[..i];
      grown := grown.(containers := grown.containers + [ToContainer(specs[i])]);
    }
    assert specs[..|specs|] == specs;
  }

  /** `GetPods`: one `tmpPod` is reused for every listed pod and its container list is never reset. */
  method GetPods(items: seq<PodItem>) returns (pods: seq<Pod>)
    ensures PodsLoaded(items, pods)
  {
    var tmpPod := Pod("", "", [], None);
    pods := [];
    for p := 0 to |items|
      invariant |pods| == p
      invariant forall n :: 0 <= n < p ==>
        pods[n] == Pod(items[n].name, items[n].nodeName, ContainersUpTo(items, n + 1), None)
      invariant tmpPod.containers == ContainersUpTo(items, p) && tmpPod.nodePtr == None
    {
      tmpPod := tmpPod.(name := items[p].name, nodeName := items[p].nodeName);
      tmpPod := AppendContainers(tmpPod, items[p].containers);
      pods := pods + [tmpPod];
    }
  }

  /**
   * The containers a produced pod carries grow along the listing: pod i's list is a prefix of
   * pod j's for i <= j, and it ends with pod i's own containers.
   */
  lemma ContainersAccumulate(items: seq<PodItem>, i: nat, j: nat)
    requires i <= j < |items|
    ensures ContainersUpTo(items, i + 1) <= ContainersUpTo(items, j + 1)
    ensures ContainersUpTo(items, i + 1)[|ContainersUpTo(items, i)|..] == Convert(items[i].containers)
  {
    ContainersPrefix(items, i, j);
    OwnContainersLast(items, i);
  }

  /** Pod i's container list is a prefix of pod j's for i <= j. */
  lemma {:induction false} ContainersPrefix(items: seq<PodItem>, i: nat, j: nat)
    requires i <= j < |items|
    ensures ContainersUpTo(items, i + 1) <= ContainersUpTo(items, j + 1)
  {
    if i < j {
      ContainersPrefix(items, i, j - 1);
      PrefixStep(items, i, j);
    }
  }

  /** A prefix of pod j-1's container list is a prefix of pod j's. */
  lemma PrefixStep(items: seq<PodItem>, i: nat, j: nat)
    requires i < j < |items| && ContainersUpTo(items, i + 1) <= ContainersUpTo(items, j)
    ensures ContainersUpTo(items, i + 1) <= ContainersUpTo(items, j + 1)
  {
    UpToStep(items, j);
    PrefixExtends(ContainersUpTo(items, i + 1), ContainersUpTo(items, j), Convert(items[j].containers));
  }

  /** A prefix of a list is a prefix of that list extended. */
  lemma PrefixExtends(a: seq<Container>, b: seq<Container>, c: seq<Container>)
    requires a <= b
    ensures a <= b + c
  {
    assert (b + c)[..|a|] == b[..|a|];
  }

  /** The containers up to pod i are those of the pods before it, followed by its own. */
  lemma UpToStep(items: seq<PodItem>, i: nat)
    requires i < |items|
    ensures ContainersUpTo(items, i + 1) == ContainersUpTo(items, i) + Convert(items[i].containers)
  {
  }

  /** Pod i's containers end with its own. */
  lemma OwnContainersLast(items: seq<PodItem>, i: nat)
    requires i < |items|
    ensures ContainersUpTo(items, i + 1)[|ContainersUpTo(items, i)|..] == Convert(items[i].containers)
  {
    UpToStep(items, i);
  }

  /**
   * Two listed pods with one container each: the second produced pod carries both containers,
   * the first pod's one ahead of its own.
   */
  lemma SecondPodCarriesFirstPodsContainer(a: ContainerSpec, b: ContainerSpec, pods: seq<Pod>)
    requires PodsLoaded([PodItem("p1", "n1", [a]), PodItem("p2", "n1", [b])], pods)
    ensures pods[0].containers == [ToContainer(a)]
    ensures pods[1].containers == [ToContainer(a), ToContainer(b)]
  {
    TwoPodsUpTo("p1", "p2", a, b);
  }

  /** The containers `GetPods` accumulates over a listing of two one-container pods on node n1. */
  lemma TwoPodsUpTo(first: string, second: string, a: ContainerSpec, b: ContainerSpec)
    ensures ContainersUpTo([PodItem(first, "n1", [a]), PodItem(second, "n1", [b])], 1) == [ToContainer(a)]
    ensures ContainersUpTo([PodItem(first, "n1", [a]), PodItem(second, "n1", [b])], 2) == [ToContainer(a), ToContainer(b)]
  {
    var items := [PodItem(first, "n1", [a]), PodItem(second, "n1", [b])];
    ConvertOne(a);
    ConvertOne(b);
    assert ContainersUpTo(items, 1) == [] + Convert([a]);
    assert ContainersUpTo(items, 2) == ContainersUpTo(items, 1) + Convert([b]);
  }

  /** One container spec converts to one container. */
  lemma ConvertOne(spec: ContainerSpec)
    ensures Convert([spec]) == [ToContainer(spec)]
  {
    assert [spec][..0] == [];
  }

  /** `GetNamespaces`: each namespace gets the pods `GetPods` builds from its own listing. */
  method GetNamespaces(items: seq<NamespaceItem>) returns (nss: seq<Namespace>)
    ensures |nss| == |items|
    ensures forall i :: 0 <= i < |items| ==> nss[i].name == items[i].name && PodsLoaded(items[i].pods, nss[i].pods)
  {
    nss := [];
    for i := 0 to |items|
      invariant |nss| == i
      invariant forall n :: 0 <= n < i ==> nss[n].name == items[n].name && PodsLoaded(items[n].pods, nss[n].pods)
    {
      var pods := GetPods(items[i].pods);
      nss := nss + [Namespace(items[i].name, pods)];
    }
  }

  /** The three quantities of a ResourceList a fresh Available ledger starts from. */
  function Seed(rl: ResourceList): Resource {
    Resource(Cpu(rl), Memory(rl), Pods(rl))
  }

  /** The `ClusterNode` built from one listed node. */
  function NodeOf(item: NodeItem): (node: ClusterNode)
    ensures node.name == item.name && node.labels == item.labels
    ensures node.allocatable == item.allocatable && node.capacity == item.capacity
    ensures node.available == Resource(Cpu(node.allocatable), Memory(node.allocatable), Pods(node.allocatable))
  {
    ClusterNode(item.name, item.allocatable, item.capacity, Seed(item.allocatable), item.labels)
  }

  /** The node list of a listing. */
  function Loaded(items: seq<NodeItem>): (nodes: seq<ClusterNode>)
    ensures |nodes| == |items| && forall k :: 0 <= k < |items| ==> nodes[k] == NodeOf(items[k])
  {
    seq(|items|, k requires 0 <= k < |items| => NodeOf(items[k]))
  }

  /**
   * `GetNodes`: one node per listed node, whose Available ledger starts as its own copy of the
   * allocatable CPU, memory and pod count.
   */
  method GetNodes(items: seq<NodeItem>) returns (nodes: array<ClusterNode>)
    ensures fresh(nodes) && nodes[..] == Loaded(items)
  {
    nodes := new ClusterNode[|items|];
    for k := 0 to |items|
      invariant forall m :: 0 <= m < k ==> nodes[m] == NodeOf(items[m])
    {
      nodes[k] := NodeOf(items[k]);
    }
  }
}
