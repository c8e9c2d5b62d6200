/**
 * What the accounting pass leaves in the ledgers, stated without its loop structure: pod-slot
 * conservation, the sum of counted limits, independence from namespace, pod and container
 * order, the skip rule, and that requests are never charged.
 */
module Properties {
  import opened Wrappers
  import opened Quantity
  import opened Topology
  import opened Accounting
  import opened Sums

  // ---- Flat views of a snapshot ----

  /** All pods of all namespaces, in namespace order and then pod order. */
  function AllPods(nss: seq<Namespace>): seq<Pod> {
    if |nss| == 0 then [] else AllPods(nss[..|nss| - 1]) + nss[|nss| - 1].pods
  }

  /** The pods of `pods` linked to node `k`, in order. */
  function BoundTo(pods: seq<Pod>, k: nat): seq<Pod> {
    if |pods| == 0 then []
    else if pods[|pods| - 1].nodePtr == Some(k) then BoundTo(pods[..|pods| - 1], k) + [pods[|pods| - 1]]
    else BoundTo(pods[..|pods| - 1], k)
  }

  /** `BoundTo` keeps exactly the pods linked to `k`, and no more of them than there are pods. */
  lemma {:induction false} BoundToSelects(pods: seq<Pod>, k: nat)
    ensures |BoundTo(pods, k)| <= |pods|
    ensures forall p :: p in BoundTo(pods, k) <==> p in pods && p.nodePtr == Some(k)
  {
    if pods != [] {
      var init := pods[..|pods| - 1];
      BoundToSelects(init, k);
      assert pods == init + [pods[|pods| - 1]];
    }
  }

  /** The containers of all of `pods`, in order. */
  function AllContainers(pods: seq<Pod>): seq<Container> {
    if |pods| == 0 then [] else AllContainers(pods[..|pods| - 1]) + pods[|pods| - 1].containers
  }

  /** `Replace(nss, i, j, p)`: the snapshot with pod j of namespace i replaced by `p`. */
  function Replace(nss: seq<Namespace>, i: nat, j: nat, p: Pod): seq<Namespace>
    requires i < |nss| && j < |nss[i].pods|
  {
    nss[i := nss[i].(pods := nss[i].pods[j := p])]
  }

  // ---- The ledgers' figures as sums ----

  /** What all namespaces take from node `k` is what their pods, laid end to end, take. */
  lemma {:induction false} UsageOnFlat(nss: seq<Namespace>, k: nat)
    ensures UsageOn(nss, k) == Usage(AllPods(nss), k)
  {
    if nss != [] {
      var init, last := nss[..|nss| - 1], nss[|nss| - 1].pods;
      UsageOnFlat(init, k);
      SumOfAppend(AllPods(init), last, ChargedTo(k));
    }
  }

  /** Listing the namespaces in another order leaves every ledger as it was. */
  lemma NamespaceOrderIndependent(nss: seq<Namespace>, other: seq<Namespace>, k: nat)
    requires multiset(nss) == multiset(other)
    ensures UsageOn(nss, k) == UsageOn(other, k)
  {
    SumOfPermutation(nss, other, NamespaceCharge(k));
  }

  /**
   * The accounting pass depends only on the multiset of linked pods it is given: however
   * ordered and however spread over namespaces, they leave every ledger the same. (The pod
   * listing's order still matters upstream, since `GetPods` accumulates containers.)
   */
  lemma PodOrderIndependent(nss: seq<Namespace>, other: seq<Namespace>, k: nat)
    requires multiset(AllPods(nss)) == multiset(AllPods(other))
    ensures UsageOn(nss, k) == UsageOn(other, k)
  {
    UsageOnFlat(nss, k);
    UsageOnFlat(other, k);
    SumOfPermutation(AllPods(nss), AllPods(other), ChargedTo(k));
  }

  /** Replacing one pod by a pod with the same charge to `k` leaves the list's usage of `k` as it was. */
  lemma UsageUpdate(pods: seq<Pod>, j: nat, p: Pod, k: nat)
    requires j < |pods| && Charge(p, k) == Charge(pods[j], k)
    ensures Usage(pods[j := p], k) == Usage(pods, k)
  {
    assert ChargedTo(k)(p) == ChargedTo(k)(pods[j]);
    SumOfUpdate(pods, j, p, ChargedTo(k));
  }

  /** Replacing one namespace by one whose pods take the same from `k` leaves the total usage of `k` as it was. */
  lemma UsageOnUpdate(nss: seq<Namespace>, i: nat, ns: Namespace, k: nat)
    requires i < |nss| && Usage(ns.pods, k) == Usage(nss[i].pods, k)
    ensures UsageOn(nss[i := ns], k) == UsageOn(nss, k)
  {
    assert NamespaceCharge(k)(ns) == NamespaceCharge(k)(nss[i]);
    SumOfUpdate(nss, i, ns, NamespaceCharge(k));
  }

  /** Replacing one pod by a pod with the same link and the same usage changes no ledger. */
  lemma SamePodCharges(nss: seq<Namespace>, i: nat, j: nat, p: Pod, k: nat)
    requires i < |nss| && j < |nss[i].pods|
    requires p.nodePtr == nss[i].pods[j].nodePtr && PodUsage(p) == PodUsage(nss[i].pods[j])
    ensures UsageOn(Replace(nss, i, j, p), k) == UsageOn(nss, k)
  {
    var pods := nss[i].pods;
    SameCharge(p, pods[j], k);
    UsageUpdate(pods, j, p, k);
    UsageOnUpdate(nss, i, nss[i].(pods := pods[j := p]), k);
  }

  /** Two pods with the same link and the same usage take the same from every node. */
  lemma SameCharge(p: Pod, q: Pod, k: nat)
    requires p.nodePtr == q.nodePtr && PodUsage(p) == PodUsage(q)
    ensures Charge(p, k) == Charge(q, k)
  {
  }

  /** Reordering one pod's containers changes no ledger. */
  lemma ContainerOrderIndependent(nss: seq<Namespace>, i: nat, j: nat, cs: seq<Container>, k: nat)
    requires i < |nss| && j < |nss[i].pods|
    requires multiset(cs) == multiset(nss[i].pods[j].containers)
    ensures UsageOn(Replace(nss, i, j, nss[i].pods[j].(containers := cs)), k) == UsageOn(nss, k)
  {
    SumOfPermutation(cs, nss[i].pods[j].containers, ContainerUsage);
    SamePodCharges(nss, i, j, nss[i].pods[j].(containers := cs), k);
  }

  /**
   * The skip rule: a container whose CPU limit or memory limit is zero, added anywhere to
   * any pod, changes neither the CPU nor the memory (nor any other) figure of any ledger.
   */
  lemma SkippedContainerIgnored(nss: seq<Namespace>, i: nat, j: nat, n: nat, c: Container, k: nat)
    requires i < |nss| && j < |nss[i].pods| && n <= |nss[i].pods[j].containers|
    requires Cpu(c.limits) == 0 || Memory(c.limits) == 0
    ensures var cs := nss[i].pods[j].containers;
            UsageOn(Replace(nss, i, j, nss[i].pods[j].(containers := cs[..n] + [c] + cs[n..])), k) == UsageOn(nss, k)
  {
    var cs := nss[i].pods[j].containers;
    var grown := cs[..n] + [c] + cs[n..];
    assert grown[..n] + grown[n + 1..] == cs;
    SumOfRemove(grown, n, ContainerUsage);
    SamePodCharges(nss, i, j, nss[i].pods[j].(containers := grown), k);
  }

  /** Requests are never charged: changing one container's requests changes no ledger. */
  lemma RequestsIgnored(nss: seq<Namespace>, i: nat, j: nat, m: nat, requests: ResourceList, k: nat)
    requires i < |nss| && j < |nss[i].pods| && m < |nss[i].pods[j].containers|
    ensures var cs := nss[i].pods[j].containers;
            UsageOn(Replace(nss, i, j, nss[i].pods[j].(containers := cs[m := cs[m].(requests := requests)])), k)
            == UsageOn(nss, k)
  {
    var cs := nss[i].pods[j].containers;
    SumOfUpdate(cs, m, cs[m].(requests := requests), ContainerUsage);
    SamePodCharges(nss, i, j, nss[i].pods[j].(containers := cs[m := cs[m].(requests := requests)]), k);
  }

  // ---- The totals ----

  /**
   * What a list of pods takes from node `k`: one pod slot for each pod linked to `k`, plus the
   * counted limits of exactly those pods' containers.
   */
  lemma {:induction false} BoundUsage(pods: seq<Pod>, k: nat)
    ensures Usage(pods, k) == Plus(Resource(0, 0, |BoundTo(pods, k)|), ContainersUsage(AllContainers(BoundTo(pods, k))))
  {
    if |pods| == 0 {
      SumOfEmpty(pods, ChargedTo(k));
      NoneBound(pods, k);
      NoContainers(BoundTo(pods, k));
      SumOfEmpty(AllContainers(BoundTo(pods, k)), ContainerUsage);
      PlusZero(Zero);
    } else {
      BoundUsage(pods[..|pods| - 1], k);
      BoundUsageStep(pods, k);
    }
  }

  /** The inductive step of `BoundUsage`: from the pods before the last one to all of them. */
  lemma BoundUsageStep(pods: seq<Pod>, k: nat)
    requires pods != []
    requires var init := pods[..|pods| - 1];
             Usage(init, k) == Plus(Resource(0, 0, |BoundTo(init, k)|), ContainersUsage(AllContainers(BoundTo(init, k))))
    ensures Usage(pods, k) == Plus(Resource(0, 0, |BoundTo(pods, k)|), ContainersUsage(AllContainers(BoundTo(pods, k))))
  {
    var init, p := pods[..|pods| - 1], pods[|pods| - 1];
    if p.nodePtr == Some(k) {
      var n, a, u := |BoundTo(init, k)|, ContainersUsage(AllContainers(BoundTo(init, k))), ContainersUsage(p.containers);
      LinkedPodStep(pods, k);
      Regroup(n, a, u);
    } else {
      UnlinkedPodStep(pods, k);
    }
  }

  /** A last pod linked to `k` adds one slot and its containers, both to the usage and to the bound pods. */
  lemma LinkedPodStep(pods: seq<Pod>, k: nat)
    requires pods != [] && pods[|pods| - 1].nodePtr == Some(k)
    ensures var init, p := pods[..|pods| - 1], pods[|pods| - 1];
            Usage(pods, k) == Plus(Usage(init, k), Plus(Resource(0, 0, 1), ContainersUsage(p.containers))) &&
            |BoundTo(pods, k)| == |BoundTo(init, k)| + 1 &&
            ContainersUsage(AllContainers(BoundTo(pods, k)))
            == Plus(ContainersUsage(AllContainers(BoundTo(init, k))), ContainersUsage(p.containers))
  {
    var init, p := pods[..|pods| - 1], pods[|pods| - 1];
    var b := BoundTo(init, k);
    assert BoundTo(pods, k) == b + [p];
    assert AllContainers(b + [p]) == AllContainers(b) + p.containers by {
      assert (b + [p])[..|b + [p]| - 1] == b;
    }
    SumOfAppend(AllContainers(b), p.containers, ContainerUsage);
  }

  /** A last pod not linked to `k` changes neither the usage of `k` nor the pods bound to it. */
  lemma UnlinkedPodStep(pods: seq<Pod>, k: nat)
    requires pods != [] && pods[|pods| - 1].nodePtr != Some(k)
    ensures Usage(pods, k) == Usage(pods[..|pods| - 1], k)
    ensures BoundTo(pods, k) == BoundTo(pods[..|pods| - 1], k)
  {
    var init, p := pods[..|pods| - 1], pods[|pods| - 1];
    SumOfLast(pods, ChargedTo(k));
    assert Charge(p, k) == Zero;
    PlusZero(Usage(init, k));
  }

  /** No pods, none bound. */
  lemma NoneBound(pods: seq<Pod>, k: nat)
    requires |pods| == 0
    ensures BoundTo(pods, k) == []
  {
  }

  /** No pods, no containers. */
  lemma NoContainers(pods: seq<Pod>)
    requires |pods| == 0
    ensures AllContainers(pods) == []
  {
  }

  /** One more slot and one more amount, regrouped. */
  lemma Regroup(n: int, a: Resource, u: Resource)
    ensures Plus(Plus(Resource(0, 0, n), a), Plus(Resource(0, 0, 1), u)) == Plus(Resource(0, 0, n + 1), Plus(a, u))
  {
  }

  /**
   * Pod-slot conservation and the sum of counted limits: what the pass takes from node `k` is
   * one pod slot per pod linked to `k`, and the CPU and memory of the counted containers of
   * exactly those pods.
   */
  lemma LedgerTotals(nss: seq<Namespace>, k: nat)
    ensures var bound := BoundTo(AllPods(nss), k);
            UsageOn(nss, k).pod == |bound| &&
            UsageOn(nss, k).cpu == ContainersUsage(AllContainers(bound)).cpu &&
            UsageOn(nss, k).mem == ContainersUsage(AllContainers(bound)).mem
  {
    var bound := BoundTo(AllPods(nss), k);
    UsageOnFlat(nss, k);
    BoundUsage(AllPods(nss), k);
    ContainersChargeNoSlots(AllContainers(bound));
  }

  /** Containers never take pod slots. */
  lemma {:induction false} ContainersChargeNoSlots(cs: seq<Container>)
    ensures ContainersUsage(cs).pod == 0
  {
    if cs != [] {
      ContainersChargeNoSlots(cs[..|cs| - 1]);
    }
  }
}
