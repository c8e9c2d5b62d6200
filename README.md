# k8sextend resource accounting, modelled in Dafny

k8sextend takes one snapshot of a Kubernetes cluster (its nodes, and its namespaces with their
pods and containers) and works out, per node, an Available ledger of CPU, memory and pod
slots. Each ledger starts as a copy of the node's Allocatable amounts. `Connect` links every pod
to the node named by its `NodeName`. It then takes one pod slot per pod from that node. For each
container whose CPU limit and memory limit both read as non-zero, it also takes those limits.

The model follows `k8sextend.go` component by component:

- `quantity.dfy` (`Quantity`): `resource.Quantity` as exact integers. CPU is in millicores,
  memory in bytes, pods a count. `v1.ResourceList` is a `map<string, int>` whose
  `Cpu()`/`Memory()`/`Pods()` give 0 for a missing entry. The module also holds the
  `Value()` rounding used by the skip guard and the truncating division used by `Print`.
- `topology.dfy` (`Topology`): the API listings and the `Namespace`, `Pod`, `Container` and
  `ClusterNode` structures.
- `loader.dfy` (`Loader`): the loops of `GetPods`, `GetNamespaces` and `GetNodes`.
- `linker.dfy` (`Linker`): the first loop nest of `Connect`.
- `sums.dfy` (`Sums`): sums of resource triples over a sequence, and why a sum does not
  depend on how its terms are split or ordered.
- `accounting.dfy` (`Accounting`): the second loop nest of `Connect`, one method per loop
  level. Each is proved against the specification functions `ContainersUsage`, `Usage` and
  `UsageOn`, which are sums over a pod's containers, a namespace's pods and the namespaces.
- `properties.dfy` (`Properties`): what the accounting pass computes from the linked pods,
  restated in flat form. This covers pod-slot conservation, the sum of counted limits, order
  independence, the skip rule and ignored requests.
- `k8sextend.dfy` (`K8sExtend`): `Connect` end to end, the figures `Print` reports, and
  concrete snapshots.

How the shared ledgers are represented: in the source a pod's `NodePTR` is a value copy of a
`ClusterNode`. Its `Available` fields are `*resource.Quantity` pointers shared with the entry in
the node slice. In the model the nodes live in one `array<ClusterNode>`, and a pod's `nodePtr`
is `Some(k)`, the index of that node. Decrementing "through the pod" updates `nodes[k]` in place,
which is exactly the sharing the pointers give. A zero-value `NodePTR` (nil pointers) is `None`.

Assumptions about `resource.Quantity`:
- `Value()` rounds to whole units away from zero. For a CPU amount in millicores it is therefore
  zero exactly when the amount is zero (`CoreValue`, `CoreValueRoundsAwayFromZero`). For
  non-negative limits this is the ceiling.
- Memory and pod amounts are whole numbers, so their `Value()` is exact.
- `MilliValue()` of a CPU amount is the millicore count itself.
- `Sub` and `Set(Value() - 1)` are exact integer subtraction.

Points where the code's behaviour is easy to misread:
- A pod whose `NodeName` matches no node is not skipped. Its `NodePTR` keeps the zero value,
  whose quantity pointers are nil, and line 144 dereferences one of them, so the process
  panics. `AccountPods` and `Connect` report this as `ok == false` (see `PendingPodPanics`).
- The guard at line 147 joins its two tests with `||`: a container is skipped when its CPU
  limit *or* its memory limit is zero, and then neither limit is charged.
- `GetPods` fills one `tmpPod` value for every listed pod (line 187) and only appends to its
  container list (line 200), so pod i carries the containers of listed pods 0..i. In the
  two-pod example with one 500m/512Mi container, the model's result is 1000m and 3072Mi
  (`TwoPodsOnOneNode`). Charging each container once would leave 1500m and 3584Mi.
- Because of this accumulation, the order of a namespace's pod listing changes the ledgers.
  The same two pods listed the other way round leave 1500m and 3584Mi
  (`ReversedTwoPodsOnOneNode`). The order of the namespaces and the order of one pod's
  containers change nothing (`NamespaceOrderIndependent`, `ContainerOrderIndependent`).
- `Print` takes the pod total from `node.Allocatable.Pods()` (line 165), like the CPU and
  memory totals.

## Model

| member | source | states |
|---|---|---|
| Quantity.CoreValue | k8sextend.go:147 | The CPU limit's `Value()` is zero exactly when the millicore amount is zero. |
| Quantity.CoreValueRoundsAwayFromZero | k8sextend.go:147 | That `Value()` is the amount in whole cores rounded away from zero: the ceiling for non-negative amounts, the floor for negative ones. |
| Quantity.Mebibytes | k8sextend.go:164 | Memory is shown as bytes divided by 1048576, truncated toward zero. Both signs are bounded, so an overdrawn ledger rounds toward zero. |
| Loader.Convert | k8sextend.go:199-203 | One `Container` per container spec, in order, carrying that spec's limits and requests. |
| Loader.AppendContainers | k8sextend.go:199-203 | The container loop appends one converted container per spec, in order, to the reused pod's list and changes nothing else in it. |
| Loader.GetPods | k8sextend.go:185-209 | One pod per listed pod, with its name and node name and no node link. Pod i's containers are those of listed pods 0..i concatenated, because `tmpPod` is reused and never cleared. |
| Loader.ContainersAccumulate | k8sextend.go:195-205 | Each produced pod's container list is a prefix of every later pod's list, and it ends with the pod's own containers. |
| Loader.SecondPodCarriesFirstPodsContainer | k8sextend.go:187-205 | For two listed pods with one container each, the second produced pod carries both containers, the first pod's container first. |
| Loader.GetNamespaces | k8sextend.go:169-182 | One namespace per listed namespace, in order. Each one's pods are what `GetPods` builds from that namespace's own listing. |
| Loader.NodeOf | k8sextend.go:221-228 | A new node keeps its listed name, Allocatable, Capacity and labels. Its Available triple equals its allocatable CPU, memory and pod count. |
| Loader.GetNodes | k8sextend.go:212-232 | A fresh node list, one entry per listed node, in order, each built as `NodeOf` says. |
| Linker.LastMatch | k8sextend.go:131-135 | Returns the index of a node whose name equals the pod's `NodeName` exactly, with no later node of that name, so the last match wins. Returns `None` exactly when no node has that name. |
| Linker.LinkPods | k8sextend.go:126-137 | Only the pods' links change. Each pod is linked to the last node of its `NodeName` and keeps its previous link when no node matches. Namespace and pod names, counts and order are unchanged. |
| Accounting.ContainerUsage | k8sextend.go:147-150 | A container is charged its CPU and memory limits when both are non-zero. It is charged nothing in either dimension when either one is zero, and it never takes a pod slot. |
| Accounting.TakeSlot | k8sextend.go:144 | Taking a pod's slot lowers its node's pod count by one. No other node and no other field changes. |
| Accounting.ChargeContainers | k8sextend.go:146-151 | The container loop lowers one node's CPU and memory by its containers' counted limits. No other node and no other field changes. |
| Accounting.ChargePod | k8sextend.go:143-151 | One linked pod lowers every node by what the pod takes from it: one slot and its counted limits from its own node, nothing from the others. Only ledgers change. |
| Accounting.ChargePods | k8sextend.go:142-152 | The pod loop of one namespace lowers each node by what its linked pods use. It fails exactly when some pod has no link, and only ledgers change. |
| Accounting.AccountPods | k8sextend.go:139-153 | The pass fails exactly when some pod is unlinked. Otherwise each node's ledger is its old value minus what the pods linked to it use. Only ledgers change, so running it twice charges twice. |
| Properties.UsageOnFlat | k8sextend.go:140-142 | The charge namespace by namespace equals the charge of all pods laid end to end. |
| Properties.NamespaceOrderIndependent | k8sextend.go:140 | Any reordering of the namespaces charges every node the same. |
| Properties.PodOrderIndependent | k8sextend.go:140-144 | The accounting pass depends only on the multiset of linked pods it is given, whatever their order and however they are spread over namespaces. This holds for the pods after loading: reordering the pod listing changes what `GetPods` builds (see `ReversedTwoPodsOnOneNode`). |
| Properties.ContainerOrderIndependent | k8sextend.go:146-151 | Reordering one pod's containers charges every node the same. |
| Properties.SkippedContainerIgnored | k8sextend.go:147-150 | Adding a container with a zero CPU limit or a zero memory limit anywhere in any pod changes no node's charge. |
| Properties.RequestsIgnored | k8sextend.go:146-150 | Changing a container's requests changes no node's charge. |
| Properties.BoundUsage | k8sextend.go:142-150 | Over a flat pod list, node k is charged one pod slot per pod linked to it, plus the usage of exactly those pods' containers. |
| Properties.LedgerTotals | k8sextend.go:140-153 | Over the whole snapshot, node k's pod charge is the number of pods linked to it. Its CPU and memory charges are the counted limits of those pods' containers. |
| K8sExtend.Connect | k8sextend.go:123-155 | Builds what the listings give and links each pod to the last node of its name. It fails exactly when some pod's name matches no node. Otherwise each ledger is its Allocatable triple minus the node's charge, and all other node fields are as listed. |
| K8sExtend.LedgerAfterConnect | k8sextend.go:124-153 | After a run without a panic (any outcome of `Connect` is `Settled`), Available pods = allocatable pods minus the linked pod count. Available CPU and memory = allocatable minus the counted limits of those pods. There is no lower bound, and Allocatable, Capacity, name and labels are as listed. |
| K8sExtend.Report | k8sextend.go:159-166 | Reports CPU in millicores, memory in mebibytes truncated toward zero, and pods as counts, with totals taken from Allocatable. |
| K8sExtend.TwoPodsOnOneNode | k8sextend.go:195-205 | One node of 2000m, 4096Mi and 10 pods. Pods p1 (500m/512Mi) and p2 (all-zero limits) both run on it. The result is 1000m, 3072Mi and 8 pods, because p2 also carries p1's container. |
| K8sExtend.ReversedTwoPodsOnOneNode | k8sextend.go:187-205 | The same listing with p2 ahead of p1 leaves 1500m, 3584Mi and 8 pods. Now p1 carries p2's all-zero container ahead of its own, so 500m/512Mi is charged once. The order of the pod listing changes the ledgers. |
| K8sExtend.PendingPodPanics | k8sextend.go:144 | A pod with an empty `NodeName` on a cluster of named nodes makes the run fail. |

## Left out

- Client setup in `Connect` (service-account files, token, kubeconfig flags, clientset) and the global `client`: this is file and network I/O. The listings it would fetch are the inputs of `Connect`.
- The `List` calls in `GetNamespaces`, `GetPods` and `GetNodes`, and their error panics: these are foreign library calls. Their results are input sequences, and a listing error is not modelled.
- The internals of `resource.Quantity` (scales, `Copy`, string formats): amounts are exact integers. Sub-millicore CPU and fractional bytes are not representable.
- `Value()`/`Set` work on `int64` and the model's integers are unbounded: overflow past 2^63 is not modelled.
- `fmt.Printf` formatting of `Print` and the quantity string of the pod column: the model keeps only the figures printed (`Report`).
- JSON tags, the embedded `v1.Container` (only its name is kept) and the labels map, which is carried but has no behaviour.
- AccountPods: after the panic the source process stops, so the contract says only that nothing but ledgers changed when `ok` is false. The part-way ledger values are not stated.
