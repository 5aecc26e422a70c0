/**
 * Concrete pod events with the outcomes the repository's tests expect: a pod named
 * MockPod on node "foo" (an "arm" node), queued for this initializer alone, handled
 * under the default configuration (annotation optional) unless stated otherwise.
 */
module Scenarios {
  import opened Wrappers
  import opened Pods
  import opened Reconciler

  function MockPod(containers: seq<Container>, annotation: Option<string>): Pod {
    Pod("default", "MockPod", "foo", containers, containers,
        if annotation.Some? then map[DefaultAnnotation := annotation.value] else map[],
        Some([DefaultInitializerName]))
  }

  function ArmRegistry(name: string): Option<Node> {
    if name == "foo" then Some(Node("foo", "arm")) else None
  }

  function Amd64Registry(name: string): Option<Node> {
    if name == "foo" then Some(Node("foo", BaselineArchitecture)) else None
  }

  const Required: Config := DefaultConfig.(requireAnnotation := true)

  /** No annotation, annotation optional: images unchanged, the initializer removed. */
  lemma IgnoreImagesWithoutAnnotation(decode: string -> Option<Table>)
    ensures var pod := MockPod([Container("A", "A"), Container("B", "B")], None);
      Reconcile(pod, DefaultConfig, decode, ArmRegistry)
        == Rewritten(pod, pod.(initializers := None))
  {
  }

  /** No annotation, annotation required: a dequeue-only update. */
  lemma RequiredAnnotationMissing(decode: string -> Option<Table>)
    ensures var pod := MockPod([Container("A", "A")], None);
      Reconcile(pod, Required, decode, ArmRegistry) == Passthrough(pod.(initializers := None))
  {
  }

  /** Table {"arm": {"A": "arm_A"}} on an arm node: A's image replaced in both sequences. */
  lemma SingleImageSuccess(raw: string)
    ensures var pod := MockPod([Container("A", "A")], Some(raw));
      var table := map["arm" := map["A" := "arm_A"]];
      var r := Reconcile(pod, DefaultConfig, _ => Some(table), ArmRegistry);
      && r.Rewritten?
      && r.after.containers == [Container("A", "arm_A")]
      && r.after.initContainers == [Container("A", "arm_A")]
      && r.after.initializers.None?
  {
  }

  /** Table {"arm": {"A": "arm_A", "B": "arm_B"}} on an arm node: both images replaced in both sequences. */
  lemma MultipleImageSuccess(raw: string)
    ensures var pod := MockPod([Container("A", "A"), Container("B", "B")], Some(raw));
      var table := map["arm" := map["A" := "arm_A", "B" := "arm_B"]];
      var r := Reconcile(pod, DefaultConfig, _ => Some(table), ArmRegistry);
      && r.Rewritten?
      && r.after.containers == [Container("A", "arm_A"), Container("B", "arm_B")]
      && r.after.initContainers == [Container("A", "arm_A"), Container("B", "arm_B")]
      && r.after.initializers.None?
  {
  }

  /** Table {"arm": {"A": "arm_A"}}: A is replaced, B keeps its image. */
  lemma PartialTable(raw: string)
    ensures var pod := MockPod([Container("A", "A"), Container("B", "B")], Some(raw));
      var table := map["arm" := map["A" := "arm_A"]];
      var r := Reconcile(pod, DefaultConfig, _ => Some(table), ArmRegistry);
      r.Rewritten? && r.after.containers == [Container("A", "arm_A"), Container("B", "B")]
  {
  }

  /** Table {"aarch64": ...} on an arm node: no image changes. */
  lemma ArchitectureNotInTable(raw: string)
    ensures var pod := MockPod([Container("A", "A"), Container("B", "B")], Some(raw));
      var table := map["aarch64" := map["A" := "aarch64_A", "B" := "aarch64_B"]];
      var r := Reconcile(pod, DefaultConfig, _ => Some(table), ArmRegistry);
      r.Rewritten? && r.after == pod.(initializers := None)
  {
  }

  /** Table {"arm": {"B": "arm_B"}} for a pod holding only A: A keeps its image. */
  lemma ImageNotSet(raw: string)
    ensures var pod := MockPod([Container("A", "A")], Some(raw));
      var table := map["arm" := map["B" := "arm_B"]];
      var r := Reconcile(pod, DefaultConfig, _ => Some(table), ArmRegistry);
      r.Rewritten? && r.after == pod.(initializers := None)
  {
  }

  /** A baseline-architecture node: a dequeue-only update whatever the table holds, under either flag value. */
  lemma BaselineNode(raw: string, table: Table, cfg: Config)
    requires cfg == DefaultConfig || cfg == Required
    ensures var pod := MockPod([Container("A", "A")], Some(raw));
      Reconcile(pod, cfg, _ => Some(table), Amd64Registry) == Passthrough(pod.(initializers := None))
  {
  }
}
