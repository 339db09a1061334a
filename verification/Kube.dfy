/** The parts of the Kubernetes objects that the agent reads. A `resource.Quantity` is an exact
    decimal number and is modelled by the real number it denotes (cores, bytes, cards). */
module Kube {

  datatype Option<+T> = None | Some(value: T)

  type ResourceList = map<string, real>

  const CPU := "cpu"
  const MEMORY := "memory"
  const GPU := "nvidia.com/gpu"

  const GB_IN_BYTES := 1073741824.0
  const CORE_IN_MCORE := 1000.0

  datatype Phase = Pending | Running | Succeeded | Failed | Unknown

  datatype Container = Container(name: string, requests: ResourceList)

  datatype PodKey = PodKey(namespace: string, name: string)

  datatype Pod = Pod(key: PodKey, nodeName: string, phase: Phase, containers: seq<Container>) {
    predicate Terminal() { phase == Failed || phase == Succeeded }

    /** A pod takes room on a node while it is bound and not finished. */
    predicate Accounted() { nodeName != "" && !Terminal() }

    predicate NonNegative() {
      forall i, r | 0 <= i < |containers| && r in containers[i].requests ::
        0.0 <= containers[i].requests[r]
    }
  }

  datatype Node = Node(name: string, labels: Option<map<string, string>>, allocatable: ResourceList)

  /** The resources that the agent accounts. */
  predicate Kind(r: string) { r == CPU || r == MEMORY || r == GPU }

  /** A quantity in the unit of node sizes and prices: cores, GiB or cards. */
  function Convert(r: string, q: real): real { if r == MEMORY then q / GB_IN_BYTES else q }
}
