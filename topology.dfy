/**
 * The entities of the cluster snapshot: the listings the Kubernetes API hands over, and the
 * structures the engine builds from them (`Namespace`, `Pod`, `Container`, `ClusterNode`).
 */
module Topology {
  import opened Wrappers
  import opened Quantity

  // ---- Listings supplied by the API (the results of the `List` calls) ----

  /** One `v1.Container` of a pod spec, with its `Resources.Limits` and `Resources.Requests`. */
  datatype ContainerSpec = ContainerSpec(name: string, limits: ResourceList, requests: ResourceList)

  /** One listed pod: its name, `Spec.NodeName` (empty while unscheduled) and containers. */
  datatype PodItem = PodItem(name: string, nodeName: string, containers: seq<ContainerSpec>)

  /** One listed namespace, together with the pod listing of that namespace. */
  datatype NamespaceItem = NamespaceItem(name: string, pods: seq<PodItem>)

  /** One listed node: name, `Status.Allocatable`, `Status.Capacity` and labels. */
  datatype NodeItem = NodeItem(name: string, allocatable: ResourceList, capacity: ResourceList,
                               labels: map<string, string>)

  // ---- The engine's own structures ----

  /** `Container`: the container spec (kept as its name) with its limits and requests. */
  datatype Container = Container(name: string, limits: ResourceList, requests: ResourceList)

  /**
   * `Pod`. `nodePtr` is the `NodePTR` link: `Some(k)` is the k-th node of the snapshot's node
   * list, whose Available ledger the pod shares; `None` is the zero-value `ClusterNode`
   * whose quantity pointers are nil.
   */
  datatype Pod = Pod(name: string, nodeName: string, containers: seq<Container>, nodePtr: Option<nat>)

  datatype Namespace = Namespace(name: string, pods: seq<Pod>)

  /** `ClusterNode`: `available` is the mutable ledger; the other fields are load-time readings. */
  datatype ClusterNode = ClusterNode(name: string, allocatable: ResourceList, capacity: ResourceList,
                                     available: Resource, labels: map<string, string>)

  /** `a` and `b` agree on everything but the Available ledger. */
  predicate SameReadings(a: ClusterNode, b: ClusterNode) {
    a.name == b.name && a.allocatable == b.allocatable && a.capacity == b.capacity && a.labels == b.labels
  }

  /** Every `NodePTR` that is set names a node of a list of `n` nodes. */
  predicate PointersWithin(nss: seq<Namespace>, n: nat) {
    forall i, j :: 0 <= i < |nss| && 0 <= j < |nss[i].pods| && nss[i].pods[j].nodePtr.Some? ==>
      nss[i].pods[j].nodePtr.value < n
  }

  /** Every pod of every namespace is linked to a node. */
  predicate AllResolved(nss: seq<Namespace>) {
    forall i, j :: 0 <= i < |nss| && 0 <= j < |nss[i].pods| ==> nss[i].pods[j].nodePtr.Some?
  }
}
