/**
 * The two namespace labels that make a namespace a backup target, and the
 * tests the webhook applies to them (namespace-webhook/main.go:118-144).
 */
module Labels {

  const TargetLabel: string := "namespace.oam.dev/target"
  const RuntimeLabel: string := "usage.oam.dev/runtime"
  const TargetRuntime: string := "target"

  /** A namespace's label map; Go's nil map is the empty map. */
  type LabelMap = map<string, string>

  /** The part of a corev1.Namespace the webhook reads. */
  datatype Namespace = Namespace(name: string, labels: LabelMap)

  /** The zero value `corev1.Namespace{}`: no name and a nil label map. */
  const Unset: Namespace := Namespace("", map[])

  /** Go's two-value map index `v, ok := labels[key]`: the zero string and false when absent. */
  function Lookup(labels: LabelMap, key: string): (string, bool) {
    if key in labels then (labels[key], true) else ("", false)
  }

  /**
   * The target predicate: the target label is present and non-empty, and the
   * runtime label is present and exactly "target" (no trimming, case-sensitive).
   */
  function IsTarget(labels: LabelMap): (b: bool)
    ensures b <==> TargetLabel in labels && labels[TargetLabel] != ""
                   && RuntimeLabel in labels && labels[RuntimeLabel] == TargetRuntime
  {
    var (targetName, targetKey) := Lookup(labels, TargetLabel);
    var (runtime, runtimeKey) := Lookup(labels, RuntimeLabel);
    targetKey && targetName != "" && runtimeKey && runtime == TargetRuntime
  }

  /**
   * The old-side test of the Update "activate" branch: some label is absent or
   * empty. It is not the negation of IsTarget: a non-empty runtime other than
   * "target" fails both.
   */
  function OldSideUnset(labels: LabelMap): (b: bool)
    ensures b <==> TargetLabel !in labels || labels[TargetLabel] == ""
                   || RuntimeLabel !in labels || labels[RuntimeLabel] == ""
    ensures b ==> !IsTarget(labels)
  {
    var (oldTargetName, oldTargetKey) := Lookup(labels, TargetLabel);
    var (oldRuntime, oldRuntimeKey) := Lookup(labels, RuntimeLabel);
    !oldTargetKey || oldTargetName == "" || !oldRuntimeKey || oldRuntime == ""
  }

  /** A nil or empty label map, or an empty target value, is never a target. */
  lemma NoLabelsNoTarget(labels: LabelMap)
    ensures !IsTarget(map[])
    ensures TargetLabel in labels && labels[TargetLabel] == "" ==> !IsTarget(labels)
    ensures TargetLabel !in labels || RuntimeLabel !in labels ==> !IsTarget(labels)
  {
  }

  /** Only the exact runtime value "target" qualifies; any non-empty target value does, whitespace included. */
  lemma ExactRuntimeAnyTarget(labels: LabelMap, target: string, runtime: string)
    ensures IsTarget(labels[TargetLabel := target][RuntimeLabel := runtime])
            <==> target != "" && runtime == TargetRuntime
  {
  }

  /**
   * The gap between the weak old-side test and the negated predicate: exactly
   * the label maps with a non-empty target and a non-empty runtime other than "target".
   */
  lemma WeakGuardGap(labels: LabelMap)
    ensures (!IsTarget(labels) && !OldSideUnset(labels))
            <==> (TargetLabel in labels && labels[TargetLabel] != ""
                  && RuntimeLabel in labels && labels[RuntimeLabel] != ""
                  && labels[RuntimeLabel] != TargetRuntime)
  {
  }
}
