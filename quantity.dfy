/**
 * Exact integer stand-ins for the Kubernetes `resource.Quantity` values the engine reads
 * and writes. CPU is measured in millicores, memory in bytes and pod slots as a count.
 */
module Quantity {

  /** A `v1.ResourceList`: resource name to amount ("cpu" in millicores, "memory" in bytes, "pods" a count). */
  type ResourceList = map<string, int>

  /** `ResourceList.Cpu()`: the "cpu" entry, or a zero quantity when the list has none. */
  function Cpu(rl: ResourceList): int {
    if "cpu" in rl then rl["cpu"] else 0
  }

  /** `ResourceList.Memory()`: the "memory" entry, or zero. */
  function Memory(rl: ResourceList): int {
    if "memory" in rl then rl["memory"] else 0
  }

  /** `ResourceList.Pods()`: the "pods" entry, or zero. */
  function Pods(rl: ResourceList): int {
    if "pods" in rl then rl["pods"] else 0
  }

  /** The `Resource` triple a node's Available ledger holds: CPU, MEM and POD. */
  datatype Resource = Resource(cpu: int, mem: int, pod: int)

  const Zero := Resource(0, 0, 0)

  function Plus(a: Resource, b: Resource): Resource {
    Resource(a.cpu + b.cpu, a.mem + b.mem, a.pod + b.pod)
  }

  /** Adding nothing leaves an amount as it was. */
  lemma PlusZero(a: Resource)
    ensures Plus(a, Zero) == a
  {
  }

  /** Adding to nothing gives the amount added. */
  lemma ZeroPlus(a: Resource)
    ensures Plus(Zero, a) == a
  {
  }

  function Minus(a: Resource, b: Resource): Resource {
    Resource(a.cpu - b.cpu, a.mem - b.mem, a.pod - b.pod)
  }

  /**
   * `Quantity.Value()` of a CPU amount held in millicores: the amount in whole cores,
   * rounded away from zero (so 1m reads as 1 core and -1m as -1 core).
   * Only a zero amount reads as zero.
   */
  function CoreValue(milli: int): (r: int)
    ensures r == 0 <==> milli == 0
  {
    if milli > 0 then (milli + 999) / 1000
    else if milli < 0 then -((-milli + 999) / 1000)
    else 0
  }

  /** `CoreValue` is the amount in cores rounded away from zero: the nearest whole core at or beyond it. */
  lemma CoreValueRoundsAwayFromZero(milli: int)
    ensures milli >= 0 ==> CoreValue(milli) >= 0 && (CoreValue(milli) - 1) * 1000 < milli <= CoreValue(milli) * 1000
    ensures milli <= 0 ==> CoreValue(milli) <= 0 && CoreValue(milli) * 1000 <= milli < (CoreValue(milli) + 1) * 1000
  {
  }

  /** Go's integer division on `int64`, which truncates toward zero. */
  function TruncDiv(a: int, d: int): (q: int)
    requires d > 0
    ensures a >= 0 ==> q >= 0 && q * d <= a < (q + 1) * d
    ensures a <= 0 ==> q <= 0 && (q - 1) * d < a <= q * d
  {
    if a >= 0 then a / d else -((-a) / d)
  }

  const MiB := 1024 * 1024

  /** Bytes shown as mebibytes by `Print`: `Value() / (1024 * 1024)`, truncated toward zero. */
  function Mebibytes(bytes: int): (m: int)
    ensures bytes >= 0 ==> m >= 0 && m * 1048576 <= bytes < (m + 1) * 1048576
    ensures bytes <= 0 ==> m <= 0 && (m - 1) * 1048576 < bytes <= m * 1048576
  {
    TruncDiv(bytes, MiB)
  }
}
