/**
 * The cluster objects the initializer reads and rewrites: pods, their containers,
 * nodes, the decoded multi-architecture annotation and the component's configuration.
 */
module Pods {
  import opened Wrappers

  /** A container of a pod: only `image` is ever changed by the initializer. */
  datatype Container = Container(name: string, image: string)

  /** Decoded annotation: architecture -> container name -> image reference. */
  type Table = map<string, map<string, string>>

  /**
   * A pod as the initializer sees it. `initializers` is the pending-initializer queue,
   * None when the pod has no initializers block at all (a nil field), which is a
   * different state from a block whose queue is empty.
   */
  datatype Pod = Pod(
    namespace: string,
    name: string,
    nodeName: string,
    containers: seq<Container>,
    initContainers: seq<Container>,
    annotations: map<string, string>,
    initializers: Option<seq<string>>)

  /** A node, reduced to the one field the initializer reads. */
  datatype Node = Node(name: string, architecture: string)

  /** The command-line configuration the handler runs under. */
  datatype Config = Config(initializerName: string, annotationKey: string, requireAnnotation: bool)

  const DefaultAnnotation: string := "initializer.jeefy.net/multiarch"
  const DefaultInitializerName: string := "multiarch.initializer.jeefy.net"
  const DefaultConfig: Config := Config(DefaultInitializerName, DefaultAnnotation, false)

  /** The architecture whose images are assumed to be the ones already in the manifest. */
  const BaselineArchitecture: string := "amd64"

  /** The container names of a sequence, in order. */
  function Names(cs: seq<Container>): (ns: seq<string>)
    ensures |ns| == |cs|
    ensures forall i :: 0 <= i < |cs| ==> ns[i] == cs[i].name
  {
    if cs == [] then [] else [cs[0].name] + Names(cs[1..])
  }

  /** The queue an optional initializers field stands for: an absent block holds nothing. */
  function PendingOf(inits: Option<seq<string>>): seq<string> {
    inits.GetOr([])
  }

  /** `b` is `a` with at most its initializers field replaced. */
  predicate SameExceptQueue(a: Pod, b: Pod) {
    a.(initializers := b.initializers) == b
  }

  /**
   * `b` is `a` with at most its initializers field and its container images replaced:
   * both container sequences keep their length, order and names.
   */
  predicate SameExceptImagesAndQueue(a: Pod, b: Pod) {
    && Names(a.containers) == Names(b.containers)
    && Names(a.initContainers) == Names(b.initContainers)
    && a.(containers := b.containers, initContainers := b.initContainers, initializers := b.initializers) == b
  }
}
