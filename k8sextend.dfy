/**
 * `Connect` from end to end: load the namespaces (with their pods) and the nodes, link every
 * pod to its node, and run the accounting pass; and the figures `Print` reports for a node.
 */
module K8sExtend {
  import opened Wrappers
  import opened Quantity
  import opened Topology
  import opened Loader
  import opened Linker
  import opened Accounting
  import opened Properties
  import opened Sums

  /**
   * What `Connect` hands back for the given listings: the namespaces with their pods as
   * `GetPods` builds them and linked to the last node of the same name; the nodes as
   * `GetNodes` builds them, of which only the Available ledgers have moved; and `ok` false
   * exactly when some pod names no listed node, where the source panics. When `ok` holds,
   * each ledger is its node's allocatable triple minus what the pass charged to it.
   */
  ghost predicate Connected(nsItems: seq<NamespaceItem>, nodeItems: seq<NodeItem>,
                            nss: seq<Namespace>, nodes: seq<ClusterNode>, ok: bool)
  {
    var listed := Loaded(nodeItems);
    |nss| == |nsItems| &&
    (forall i :: 0 <= i < |nsItems| ==> nss[i].name == nsItems[i].name && |nss[i].pods| == |nsItems[i].pods|) &&
    (forall i, j :: 0 <= i < |nsItems| && 0 <= j < |nsItems[i].pods| ==>
       nss[i].pods[j] == Pod(nsItems[i].pods[j].name, nsItems[i].pods[j].nodeName,
                             ContainersUpTo(nsItems[i].pods, j + 1),
                             LastMatch(listed, nsItems[i].pods[j].nodeName))) &&
    (ok <==> forall i, j :: 0 <= i < |nsItems| && 0 <= j < |nsItems[i].pods| ==>
               LastMatch(listed, nsItems[i].pods[j].nodeName).Some?) &&
    Settled(nodeItems, nss, nodes, ok)
  }

  /**
   * The nodes after the pass: each keeps its listed name, Allocatable, Capacity and labels,
   * and when `ok` holds its ledger is its allocatable triple minus what the pass charged to it.
   */
  ghost predicate Settled(nodeItems: seq<NodeItem>, nss: seq<Namespace>, nodes: seq<ClusterNode>, ok: bool) {
    |nodes| == |nodeItems| &&
    (forall k :: 0 <= k < |nodes| ==> SameReadings(nodes[k], Loaded(nodeItems)[k])) &&
    (ok ==> forall k :: 0 <= k < |nodes| ==>
       nodes[k].available == Minus(Seed(nodeItems[k].allocatable), UsageOn(nss, k)))
  }

  /** `Connect` after the client is set up: the namespace listing first, then the node listing. */
  method Connect(nsItems: seq<NamespaceItem>, nodeItems: seq<NodeItem>)
    returns (nss: seq<Namespace>, nodes: array<ClusterNode>, ok: bool)
    ensures fresh(nodes)
    ensures Connected(nsItems, nodeItems, nss, nodes[..], ok)
  {
    var loaded := GetNamespaces(nsItems);
    nodes := GetNodes(nodeItems);
    nss := LinkPods(loaded, nodes[..]);
    assert forall i, j :: 0 <= i < |nss| && 0 <= j < |nss[i].pods| ==>
      nss[i].pods[j].nodePtr == LastMatch(nodes[..], nss[i].pods[j].nodeName);
    ok := AccountPods(nss, nodes);
  }

  /**
   * The ledgers after a whole run (every `Connected` outcome is `Settled`). After a run that
   * does not panic, node k's pod count is its allocatable count minus the number of pods
   * linked to it, and its CPU and memory are the allocatable amounts minus the counted limits
   * of those pods' containers, with no lower bound. Its name, Allocatable, Capacity and
   * labels are the listed ones.
   */
  lemma LedgerAfterConnect(nodeItems: seq<NodeItem>, nss: seq<Namespace>, nodes: seq<ClusterNode>, ok: bool, k: nat)
    requires Settled(nodeItems, nss, nodes, ok) && ok && k < |nodes|
    ensures var bound := BoundTo(AllPods(nss), k);
            var charged := ContainersUsage(AllContainers(bound));
            var item := nodeItems[k];
            nodes[k].available == Resource(Cpu(item.allocatable) - charged.cpu,
                                           Memory(item.allocatable) - charged.mem,
                                           Pods(item.allocatable) - |bound|) &&
            (|bound| > Pods(item.allocatable) ==> nodes[k].available.pod < 0) &&
            nodes[k].name == item.name && nodes[k].labels == item.labels &&
            nodes[k].allocatable == item.allocatable && nodes[k].capacity == item.capacity
  {
    SettledNode(nodeItems, nss, nodes, ok, k);
    NodeLedger(nodeItems[k], nodes[k], nss, k);
  }

  /** The figures of one node whose ledger is its seed minus what the pass charged to it. */
  lemma NodeLedger(item: NodeItem, node: ClusterNode, nss: seq<Namespace>, k: nat)
    requires SameReadings(node, NodeOf(item)) && node.available == Minus(Seed(item.allocatable), UsageOn(nss, k))
    ensures var bound := BoundTo(AllPods(nss), k);
            var charged := ContainersUsage(AllContainers(bound));
            node.available == Resource(Cpu(item.allocatable) - charged.cpu,
                                       Memory(item.allocatable) - charged.mem,
                                       Pods(item.allocatable) - |bound|) &&
            (|bound| > Pods(item.allocatable) ==> node.available.pod < 0) &&
            node.name == item.name && node.labels == item.labels &&
            node.allocatable == item.allocatable && node.capacity == item.capacity
  {
    var bound := BoundTo(AllPods(nss), k);
    LedgerTotals(nss, k);
    var seed, used, charged := Seed(item.allocatable), UsageOn(nss, k), ContainersUsage(AllContainers(bound));
    assert Minus(seed, used) == Resource(seed.cpu - charged.cpu, seed.mem - charged.mem, seed.pod - |bound|);
  }

  /** Node `k` after a run that does not panic: its listed readings, and its seed minus its usage. */
  lemma SettledNode(nodeItems: seq<NodeItem>, nss: seq<Namespace>, nodes: seq<ClusterNode>, ok: bool, k: nat)
    requires Settled(nodeItems, nss, nodes, ok) && ok && k < |nodes|
    ensures SameReadings(nodes[k], NodeOf(nodeItems[k]))
    ensures nodes[k].available == Minus(Seed(nodeItems[k].allocatable), UsageOn(nss, k))
  {
    assert Loaded(nodeItems)[k] == NodeOf(nodeItems[k]);
  }

  /** The figures of one `Print` line. */
  datatype ReportLine = ReportLine(name: string, cpuAvailable: int, cpuAllocatable: int,
                                   memAvailable: int, memAllocatable: int,
                                   podsAvailable: int, podsAllocatable: int)

  /**
   * `Print`: CPU in millicores, memory in whole mebibytes truncated toward zero (so a ledger
   * overdrawn by less than 1 MiB reads as 0), pods as counts; the total column is taken from
   * Allocatable, not Capacity.
   */
  function Report(node: ClusterNode): (line: ReportLine)
    ensures line.name == node.name
    ensures line.cpuAvailable == node.available.cpu && line.cpuAllocatable == Cpu(node.allocatable)
    ensures line.memAvailable * MiB <= node.available.mem < (line.memAvailable + 1) * MiB || node.available.mem < 0
    ensures (line.memAvailable - 1) * MiB < node.available.mem <= line.memAvailable * MiB || node.available.mem > 0
    ensures line.memAllocatable == Mebibytes(Memory(node.allocatable))
    ensures line.podsAvailable == node.available.pod && line.podsAllocatable == Pods(node.allocatable)
  {
    ReportLine(node.name, node.available.cpu, Cpu(node.allocatable),
               Mebibytes(node.available.mem), Mebibytes(Memory(node.allocatable)),
               node.available.pod, Pods(node.allocatable))
  }

  // ---- Concrete snapshots ----

  const Node1 := NodeItem("n1", map["cpu" := 2000, "memory" := 4096 * MiB, "pods" := 10], map[], map[])
  const Limited := ContainerSpec("c1", map["cpu" := 500, "memory" := 512 * MiB], map[])
  const Unlimited := ContainerSpec("c2", map["cpu" := 0, "memory" := 0], map[])

  /**
   * One node with 2000m CPU, 4096Mi and 10 pod slots; pod p1 with a 500m/512Mi container and
   * pod p2 with an all-zero container, both on n1. Both pods take a slot. Because `GetPods`
   * reuses its pod value, p2 also carries p1's container, so 500m/512Mi is charged twice.
   */
  lemma TwoPodsOnOneNode(nss: seq<Namespace>, nodes: seq<ClusterNode>, ok: bool)
    requires Connected(TwoPods, [Node1], nss, nodes, ok)
    ensures ok && nodes[0].available == Resource(1000, 3072 * MiB, 8)
  {
    var c1, c2 := ToContainer(Limited), ToContainer(Unlimited);
    LinkedTwoPods(nss, nodes, ok);
    ContainerCharges(c1, c2);
    ChargesOfTwoPods(c1, c2);
    LedgerOfNode1(TwoPods, nss, nodes, ok);
  }

  /** After a run without a panic on the one-node cluster, n1's ledger is its seed minus its charge. */
  lemma LedgerOfNode1(nsItems: seq<NamespaceItem>, nss: seq<Namespace>, nodes: seq<ClusterNode>, ok: bool)
    requires Connected(nsItems, [Node1], nss, nodes, ok) && ok
    ensures nodes[0].available == Minus(Resource(2000, 4096 * MiB, 10), UsageOn(nss, 0))
  {
    assert Seed(Node1.allocatable) == Resource(2000, 4096 * MiB, 10);
  }

  const TwoPods := [NamespaceItem("default", [PodItem("p1", "n1", [Limited]), PodItem("p2", "n1", [Unlimited])])]

  /** How `Connect` loads and links the listings of `TwoPodsOnOneNode`. */
  lemma LinkedTwoPods(nss: seq<Namespace>, nodes: seq<ClusterNode>, ok: bool)
    requires Connected(TwoPods, [Node1], nss, nodes, ok)
    ensures ok
    ensures nss == [Namespace("default", [Pod("p1", "n1", [ToContainer(Limited)], Some(0)),
                                          Pod("p2", "n1", [ToContainer(Limited), ToContainer(Unlimited)], Some(0))])]
  {
    var c1, c2 := ToContainer(Limited), ToContainer(Unlimited);
    TwoPodsListing();
    assert nss[0].pods[0] == Pod("p1", "n1", [c1], Some(0));
    assert nss[0].pods[1] == Pod("p2", "n1", [c1, c2], Some(0));
    assert nss[0].pods == [nss[0].pods[0], nss[0].pods[1]];
    assert nss == [Namespace("default", nss[0].pods)];
  }

  /** The containers `GetPods` gives each pod of `TwoPods`, and the node both pods link to. */
  lemma TwoPodsListing()
    ensures LastMatch(Loaded([Node1]), "n1") == Some(0)
    ensures ContainersUpTo(TwoPods[0].pods, 1) == [ToContainer(Limited)]
    ensures ContainersUpTo(TwoPods[0].pods, 2) == [ToContainer(Limited), ToContainer(Unlimited)]
  {
    assert Loaded([Node1])[0].name == "n1";
    TwoPodsUpTo("p1", "p2", Limited, Unlimited);
  }

  /** What the pass charges node 0 in `TwoPodsOnOneNode`. */
  lemma ChargesOfTwoPods(c1: Container, c2: Container)
    requires ContainerUsage(c1) == Resource(500, 512 * MiB, 0) && ContainerUsage(c2) == Zero
    ensures UsageOn([Namespace("default", [Pod("p1", "n1", [c1], Some(0)), Pod("p2", "n1", [c1, c2], Some(0))])], 0)
            == Resource(1000, 1024 * MiB, 2)
  {
    var p1, p2 := Pod("p1", "n1", [c1], Some(0)), Pod("p2", "n1", [c1, c2], Some(0));
    OneNamespaceTwoPods("default", p1, p2, 0);
    OneContainerPod(p1, c1);
    TwoContainerPod(p2, c1, c2);
  }

  /** What the containers of the two-pod snapshots take. */
  lemma ContainerCharges(c1: Container, c2: Container)
    requires c1 == ToContainer(Limited) && c2 == ToContainer(Unlimited)
    ensures ContainerUsage(c1) == Resource(500, 512 * MiB, 0) && ContainerUsage(c2) == Zero
  {
    assert Cpu(c1.limits) == 500 && Memory(c1.limits) == 512 * MiB;
    assert Cpu(c2.limits) == 0;
  }

  /**
   * The listing of `TwoPodsOnOneNode` with its two pods in the other order. Now p1 carries
   * p2's all-zero container ahead of its own, so 500m/512Mi is charged once: the order of a
   * namespace's pod listing changes the ledgers.
   */
  lemma ReversedTwoPodsOnOneNode(nss: seq<Namespace>, nodes: seq<ClusterNode>, ok: bool)
    requires Connected(ReversedTwoPods, [Node1], nss, nodes, ok)
    ensures ok && nodes[0].available == Resource(1500, 3584 * MiB, 8)
  {
    var c1, c2 := ToContainer(Limited), ToContainer(Unlimited);
    var p2, p1 := Pod("p2", "n1", [c2], Some(0)), Pod("p1", "n1", [c2, c1], Some(0));
    LinkedReversedTwoPods(nss, nodes, ok);
    ReversedPodUsages(c1, c2);
    ChargesOfReversedTwoPods(p2, p1);
    LedgerOfNode1(ReversedTwoPods, nss, nodes, ok);
  }

  const ReversedTwoPods := [NamespaceItem("default", [PodItem("p2", "n1", [Unlimited]), PodItem("p1", "n1", [Limited])])]

  /** How `Connect` loads and links the listings of `ReversedTwoPodsOnOneNode`. */
  lemma LinkedReversedTwoPods(nss: seq<Namespace>, nodes: seq<ClusterNode>, ok: bool)
    requires Connected(ReversedTwoPods, [Node1], nss, nodes, ok)
    ensures ok
    ensures nss == [Namespace("default", [Pod("p2", "n1", [ToContainer(Unlimited)], Some(0)),
                                          Pod("p1", "n1", [ToContainer(Unlimited), ToContainer(Limited)], Some(0))])]
  {
    var c1, c2 := ToContainer(Limited), ToContainer(Unlimited);
    ReversedTwoPodsListing();
    assert nss[0].pods[0] == Pod("p2", "n1", [c2], Some(0));
    assert nss[0].pods[1] == Pod("p1", "n1", [c2, c1], Some(0));
    assert nss[0].pods == [nss[0].pods[0], nss[0].pods[1]];
    assert nss == [Namespace("default", nss[0].pods)];
  }

  /** The containers `GetPods` gives each pod of `ReversedTwoPods`, and the node both pods link to. */
  lemma ReversedTwoPodsListing()
    ensures LastMatch(Loaded([Node1]), "n1") == Some(0)
    ensures ContainersUpTo(ReversedTwoPods[0].pods, 1) == [ToContainer(Unlimited)]
    ensures ContainersUpTo(ReversedTwoPods[0].pods, 2) == [ToContainer(Unlimited), ToContainer(Limited)]
  {
    assert Loaded([Node1])[0].name == "n1";
    TwoPodsUpTo("p2", "p1", Unlimited, Limited);
  }

  /** What the pass charges node 0 in `ReversedTwoPodsOnOneNode`, given what each pod takes. */
  lemma ChargesOfReversedTwoPods(p2: Pod, p1: Pod)
    requires p2.nodePtr == Some(0) && p1.nodePtr == Some(0)
    requires PodUsage(p2) == Resource(0, 0, 1) && PodUsage(p1) == Resource(500, 512 * MiB, 1)
    ensures UsageOn([Namespace("default", [p2, p1])], 0) == Resource(500, 512 * MiB, 2)
  {
    OneNamespaceTwoPods("default", p2, p1, 0);
  }

  /** What each pod of `ReversedTwoPods` takes from its node. */
  lemma ReversedPodUsages(c1: Container, c2: Container)
    requires c1 == ToContainer(Limited) && c2 == ToContainer(Unlimited)
    ensures PodUsage(Pod("p2", "n1", [c2], Some(0))) == Resource(0, 0, 1)
    ensures PodUsage(Pod("p1", "n1", [c2, c1], Some(0))) == Resource(500, 512 * MiB, 1)
  {
    ContainerCharges(c1, c2);
    SlotOnlyPod(Pod("p2", "n1", [c2], Some(0)), c2);
    ZeroFirstPod(Pod("p1", "n1", [c2, c1], Some(0)), c2, c1);
  }

  /** A pod whose one container is not counted takes its slot only. */
  lemma SlotOnlyPod(p: Pod, c: Container)
    requires p.containers == [c] && ContainerUsage(c) == Zero
    ensures PodUsage(p) == Resource(0, 0, 1)
  {
    OneContainerPod(p, c);
  }

  /** A pod with an uncounted container ahead of a 500m/512Mi one. */
  lemma ZeroFirstPod(p: Pod, c: Container, d: Container)
    requires p.containers == [c, d] && ContainerUsage(c) == Zero && ContainerUsage(d) == Resource(500, 512 * MiB, 0)
    ensures PodUsage(p) == Resource(500, 512 * MiB, 1)
  {
    TwoContainerPod(p, c, d);
  }

  /** One namespace of two pods linked to node `k` takes both pods' usage from it. */
  lemma OneNamespaceTwoPods(name: string, p: Pod, q: Pod, k: nat)
    requires p.nodePtr == Some(k) && q.nodePtr == Some(k)
    ensures UsageOn([Namespace(name, [p, q])], k) == Plus(PodUsage(p), PodUsage(q))
  {
    OneNamespace(Namespace(name, [p, q]), k);
    TwoLinkedPods(p, q, k);
  }

  /** A snapshot of one namespace takes what that namespace's pods take. */
  lemma OneNamespace(ns: Namespace, k: nat)
    ensures UsageOn([ns], k) == Usage(ns.pods, k)
  {
    SumOfOne(ns, NamespaceCharge(k));
  }

  /** Two pods linked to node `k` take both their usages from it. */
  lemma TwoLinkedPods(p: Pod, q: Pod, k: nat)
    requires p.nodePtr == Some(k) && q.nodePtr == Some(k)
    ensures Usage([p, q], k) == Plus(PodUsage(p), PodUsage(q))
  {
    SumOfTwo(p, q, ChargedTo(k));
  }

  /** A pod of one container takes its slot and that container's usage. */
  lemma OneContainerPod(p: Pod, c: Container)
    requires p.containers == [c]
    ensures PodUsage(p) == Plus(Resource(0, 0, 1), ContainerUsage(c))
  {
    SumOfOne(c, ContainerUsage);
  }

  /** A pod of two containers takes its slot and both containers' usages. */
  lemma TwoContainerPod(p: Pod, c: Container, d: Container)
    requires p.containers == [c, d]
    ensures PodUsage(p) == Plus(Resource(0, 0, 1), Plus(ContainerUsage(c), ContainerUsage(d)))
  {
    SumOfTwo(c, d, ContainerUsage);
  }

  /** A pending pod (empty node name) on a cluster whose one node is named: the source panics. */
  lemma PendingPodPanics(nss: seq<Namespace>, nodes: seq<ClusterNode>, ok: bool)
    requires Connected([NamespaceItem("default", [PodItem("pending", "", [])])], [Node1], nss, nodes, ok)
    ensures !ok
  {
    assert LastMatch(Loaded([Node1]), "").None?;
  }
}
