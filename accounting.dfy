/**
 * The second loop nest of `Connect`: the accounting pass that charges every pod and its
 * containers' limits to the ledger of the node it is linked to, together with the
 * specification of what the pass leaves in each ledger.
 */
module Accounting {
  import opened Wrappers
  import opened Quantity
  import opened Topology
  import opened Sums

  // ---- What one container, one pod and one node are charged ----

  /**
   * What one container takes from its node's ledger: its CPU and memory limits when both are
   * non-zero, and nothing at all when either one is zero. Requests play no part. The two
   * subtractions happen together or not at all, and no pod slot is taken.
   */
  function ContainerUsage(c: Container): (r: Resource)
    ensures r.pod == 0
    ensures r.cpu == 0 <==> r.mem == 0
    ensures r == Zero <==> Cpu(c.limits) == 0 || Memory(c.limits) == 0
    ensures r != Zero ==> r.cpu == Cpu(c.limits) && r.mem == Memory(c.limits)
  {
    if Cpu(c.limits) != 0 && Memory(c.limits) != 0 then Resource(Cpu(c.limits), Memory(c.limits), 0) else Zero
  }

  /** What a list of containers takes: the sum of what each container takes. */
  function ContainersUsage(cs: seq<Container>): Resource {
    SumOf(cs, ContainerUsage)
  }

  /** What one pod takes from its node: one pod slot and its containers' counted limits. */
  function PodUsage(p: Pod): Resource {
    Plus(Resource(0, 0, 1), ContainersUsage(p.containers))
  }

  /** What a pod takes from the ledger of node `k`: its usage when linked to `k`, else nothing. */
  function Charge(p: Pod, k: nat): Resource {
    if p.nodePtr == Some(k) then PodUsage(p) else Zero
  }

  /** `Charge` of node `k`, as a term to sum. */
  function ChargedTo(k: nat): Pod -> Resource {
    (p: Pod) => Charge(p, k)
  }

  /** What the pods of one list take from node `k`: the sum of their charges. */
  function Usage(pods: seq<Pod>, k: nat): Resource {
    SumOf(pods, ChargedTo(k))
  }

  /** What the pods of one namespace take from node `k`, as a term to sum. */
  function NamespaceCharge(k: nat): Namespace -> Resource {
    (ns: Namespace) => Usage(ns.pods, k)
  }

  /** What the pods of all namespaces take from node `k`, namespace by namespace. */
  function UsageOn(nss: seq<Namespace>, k: nat): Resource {
    SumOf(nss, NamespaceCharge(k))
  }

  /** Taking two amounts in turn is taking their sum. */
  lemma MinusPlus(a: Resource, u: Resource, c: Resource)
    ensures Minus(Minus(a, u), c) == Minus(a, Plus(u, c))
  {
  }

  // ---- The pass ----

  /**
   * The container loop for one pod linked to node `t` (after its pod slot is taken): every
   * container whose CPU and memory limits both read as non-zero lowers the node's CPU and
   * memory by those limits. Only the ledger of node `t` changes.
   */
  method ChargeContainers(cs: seq<Container>, t: nat, nodes: array<ClusterNode>)
    requires t < nodes.Length
    modifies nodes
    ensures forall k :: 0 <= k < nodes.Length ==> SameReadings(nodes[k], old(nodes[k]))
    ensures forall k :: 0 <= k < nodes.Length && k != t ==> nodes[k].available == old(nodes[k].available)
    ensures nodes[t].available == Minus(old(nodes[t].available), ContainersUsage(cs))
  {
    for c := 0 to |cs|
      invariant forall k :: 0 <= k < nodes.Length && k != t ==> nodes[k] == old(nodes[k])
      invariant SameReadings(nodes[t], old(nodes[t]))
      invariant nodes[t].available == Minus(old(nodes[t].available), ContainersUsage(cs[..c]))
    {
      ghost var before := nodes[t].available;
      var limits := cs[c].limits;
      if !(CoreValue(Cpu(limits)) == 0 || Memory(limits) == 0) {
        nodes[t] := nodes[t].(available := nodes[t].available.(cpu := nodes[t].available.cpu - Cpu(limits)));
        nodes[t] := nodes[t].(available := nodes[t].available.(mem := nodes[t].available.mem - Memory(limits)));
      }
      assert nodes[t].available == Minus(before, ContainerUsage(cs[c]));
      SumOfPrefix(cs, c, ContainerUsage);
    }
    assert cs[..|cs|] == cs;
  }

  /** The pod slot taken at the start of `Connect`'s container loop: only node `t`'s POD changes. */
  method TakeSlot(t: nat, nodes: array<ClusterNode>)
    requires t < nodes.Length
    modifies nodes
    ensures forall k :: 0 <= k < nodes.Length ==> SameReadings(nodes[k], old(nodes[k]))
    ensures forall k :: 0 <= k < nodes.Length && k != t ==> nodes[k].available == old(nodes[k].available)
    ensures nodes[t].available == Minus(old(nodes[t].available), Resource(0, 0, 1))
  {
    nodes[t] := nodes[t].(available := nodes[t].available.(pod := nodes[t].available.pod - 1));
  }

  /** One linked pod: take one pod slot from its node, then its containers' counted limits. */
  method ChargePod(pod: Pod, nodes: array<ClusterNode>)
    requires pod.nodePtr.Some? && pod.nodePtr.value < nodes.Length
    modifies nodes
    ensures forall k :: 0 <= k < nodes.Length ==> SameReadings(nodes[k], old(nodes[k]))
    ensures forall k :: 0 <= k < nodes.Length ==> nodes[k].available == Minus(old(nodes[k].available), Charge(pod, k))
  {
    var t := pod.nodePtr.value;
    TakeSlot(t, nodes);
    ChargeContainers(pod.containers, t, nodes);
    forall k | 0 <= k < nodes.Length
      ensures nodes[k].available == Minus(old(nodes[k].available), Charge(pod, k))
    {
      if k == t {
        MinusPlus(old(nodes[t].available), Resource(0, 0, 1), ContainersUsage(pod.containers));
      } else {
        assert Charge(pod, k) == Zero;
      }
    }
  }

  /**
   * The pod loop for one namespace. Each linked pod takes one pod slot from its node, then
   * its containers' limits. A pod without a node link holds nil quantity pointers and the
   * dereference panics: `ok` is then false, and the ledgers are left part-way.
   */
  method ChargePods(pods: seq<Pod>, nodes: array<ClusterNode>) returns (ok: bool)
    requires forall j :: 0 <= j < |pods| && pods[j].nodePtr.Some? ==> pods[j].nodePtr.value < nodes.Length
    modifies nodes
    ensures ok <==> forall j :: 0 <= j < |pods| ==> pods[j].nodePtr.Some?
    ensures forall k :: 0 <= k < nodes.Length ==> SameReadings(nodes[k], old(nodes[k]))
    ensures ok ==> forall k :: 0 <= k < nodes.Length ==>
      nodes[k].available == Minus(old(nodes[k].available), Usage(pods, k))
  {
    for j := 0 to |pods|
      invariant forall k :: 0 <= k < nodes.Length ==> SameReadings(nodes[k], old(nodes[k]))
      invariant forall k :: 0 <= k < nodes.Length ==>
        nodes[k].available == Minus(old(nodes[k].available), Usage(pods[..j], k))
      invariant forall m :: 0 <= m < j ==> pods[m].nodePtr.Some?
    {
      if pods[j].nodePtr.None? {
        ok := false;
        return;
      }
      ChargePod(pods[j], nodes);
      forall k | 0 <= k < nodes.Length
        ensures nodes[k].available == Minus(old(nodes[k].available), Usage(pods[..j + 1], k))
      {
        SumOfPrefix(pods, j, ChargedTo(k));
      }
    }
    assert pods[..|pods|] == pods;
    ok := true;
  }

  /**
   * `Connect`'s accounting loops: the namespaces in order, each through the pod loop. The
   * pass stops at the first pod without a node link (`ok` false, as the source panics there).
   * Only the ledgers change.
   */
  method AccountPods(nss: seq<Namespace>, nodes: array<ClusterNode>) returns (ok: bool)
    requires PointersWithin(nss, nodes.Length)
    modifies nodes
    ensures ok <==> AllResolved(nss)
    ensures forall k :: 0 <= k < nodes.Length ==> SameReadings(nodes[k], old(nodes[k]))
    ensures ok ==> forall k :: 0 <= k < nodes.Length ==>
      nodes[k].available == Minus(old(nodes[k].available), UsageOn(nss, k))
  {
    for i := 0 to |nss|
      invariant forall k :: 0 <= k < nodes.Length ==> SameReadings(nodes[k], old(nodes[k]))
      invariant forall k :: 0 <= k < nodes.Length ==>
        nodes[k].available == Minus(old(nodes[k].available), UsageOn(nss[..i], k))
      invariant AllResolved(nss[..i])
    {
      ok := ChargePods(nss[i].pods, nodes);
      if !ok {
        assert !AllResolved(nss) by {
          var j :| 0 <= j < |nss[i].pods| && nss[i].pods[j].nodePtr.None?;
        }
        return;
      }
      assert nss[..i + 1][..i] == nss[..i];
    }
    assert nss[..|nss|] == nss;
    ok := true;
  }
}
