/** The first loop nest of `Connect`: attach to every pod the node whose name it was scheduled on. */
module Linker {
  import opened Wrappers
  import opened Topology

  /**
   * The index of the last node in `nodes` named `name`, or `None` when no node has that name.
   * Matching is exact string equality.
   */
  function LastMatch(nodes: seq<ClusterNode>, name: string): (r: Option<nat>)
    ensures r.Some? ==> r.value < |nodes| && nodes[r.value].name == name
    ensures r.Some? ==> forall j :: r.value < j < |nodes| ==> nodes[j].name != name
    ensures r.None? <==> forall j :: 0 <= j < |nodes| ==> nodes[j].name != name
  {
    if |nodes| == 0 then None
    else if nodes[|nodes| - 1].name == name then Some(|nodes| - 1)
    else LastMatch(nodes[..|nodes| - 1], name)
  }

  /** The link a pod holds after linking: the last matching node, or its old link if none matches. */
  function LinkOf(p: Pod, nodes: seq<ClusterNode>): Option<nat> {
    if LastMatch(nodes, p.nodeName).Some? then LastMatch(nodes, p.nodeName) else p.nodePtr
  }

  /**
   * `Connect`'s linking loops: every pod of every namespace is compared with every node, and
   * each node whose name equals the pod's `NodeName` overwrites the pod's link. Only the links
   * change; the node list is read and not written.
   */
  method LinkPods(nss: seq<Namespace>, nodes: seq<ClusterNode>) returns (linked: seq<Namespace>)
    ensures |linked| == |nss|
    ensures forall i :: 0 <= i < |nss| ==> linked[i].name == nss[i].name && |linked[i].pods| == |nss[i].pods|
    ensures forall i, j :: 0 <= i < |nss| && 0 <= j < |nss[i].pods| ==>
      linked[i].pods[j] == nss[i].pods[j].(nodePtr := LinkOf(nss[i].pods[j], nodes))
  {
    linked := nss;
    for i := 0 to |nss|
      invariant |linked| == |nss|
      invariant forall n :: 0 <= n < |nss| ==> linked[n].name == nss[n].name && |linked[n].pods| == |nss[n].pods|
      invariant forall n, j :: 0 <= n < i && 0 <= j < |nss[n].pods| ==>
        linked[n].pods[j] == nss[n].pods[j].(nodePtr := LinkOf(nss[n].pods[j], nodes))
      invariant forall n :: i <= n < |nss| ==> linked[n] == nss[n]
    {
      var pods := nss[i].pods;
      for j := 0 to |pods|
        invariant |pods| == |nss[i].pods|
        invariant forall m :: 0 <= m < j ==> pods[m] == nss[i].pods[m].(nodePtr := LinkOf(nss[i].pods[m], nodes))
        invariant forall m :: j <= m < |pods| ==> pods[m] == nss[i].pods[m]
      {
        ghost var before := pods;
        for n := 0 to |nodes|
          invariant |pods| == |nss[i].pods|
          invariant forall m :: 0 <= m < |pods| && m != j ==> pods[m] == before[m]
          invariant pods[j] == nss[i].pods[j].(nodePtr := LinkOf(nss[i].pods[j], nodes[..n]))
        {
          assert nodes[..n + 1][..n] == nodes[..n];
          if nodes[n].name == pods[j].nodeName {
            pods := pods[j := pods[j].(nodePtr := Some(n))];
          }
        }
        assert nodes[..|nodes|] == nodes;
      }
      linked := linked[i := linked[i].(pods := pods)];
    }
  }
}
