/**
 * The ClassificationRule custom resource: its spec, its match-criteria tree and
 * its status. Go's optional pointers become Option; a nil map and an empty map
 * behave alike in every place the controller reads them, so both are `map[]`.
 */
module Api {
  import opened Wrappers

  /** A point in time as metav1.Now() reports it (opaque to the controller). */
  type Time = int

  /** time.Duration: a count of nanoseconds. */
  type Duration = int

  const Second: Duration := 1_000_000_000

  datatype CommonMatchCriteria = CommonMatchCriteria(
    labels: map<string, string>,
    annotations: map<string, string>,
    namespace: string,
    name: string)

  /**
   * The four resource-request fields are part of the schema but no code path
   * reads them.
   */
  datatype PodMatchCriteria = PodMatchCriteria(
    images: seq<string>,
    cpuRequests: string,
    memoryRequests: string,
    cpuLimits: string,
    memoryLimits: string,
    nodeSelector: map<string, string>,
    serviceAccount: string,
    hostNetwork: Option<bool>,
    restartPolicy: string)

  datatype NodeMatchCriteria = NodeMatchCriteria(
    archLabels: seq<string>,
    osLabels: seq<string>,
    taints: seq<string>,
    kernelVersion: string,
    containerRuntime: string)

  datatype DeploymentMatchCriteria = DeploymentMatchCriteria(
    replicas: string,
    strategy: string,
    imagePullPolicy: string)

  datatype MatchCriteria = MatchCriteria(
    commonMatch: Option<CommonMatchCriteria>,
    podMatch: Option<PodMatchCriteria>,
    nodeMatch: Option<NodeMatchCriteria>,
    deploymentMatch: Option<DeploymentMatchCriteria>)

  /** `conflictPolicy` is carried but never read: labels are always overwritten. */
  datatype ClassificationRuleSpec = ClassificationRuleSpec(
    targetKind: string,
    matchCriteria: Option<MatchCriteria>,
    labels: map<string, string>,
    conflictPolicy: string,
    suspend: bool,
    refreshInterval: string)

  datatype ConditionStatus = ConditionTrue | ConditionFalse | ConditionUnknown

  /** metav1.Condition; `condType` is the key of the condition list. */
  datatype Condition = Condition(
    condType: string,
    status: ConditionStatus,
    observedGeneration: int,
    reason: string,
    message: string,
    lastTransitionTime: Time)

  /** `lastReconciled` and `lastError` are part of the schema but never written. */
  datatype ClassificationRuleStatus = ClassificationRuleStatus(
    conditions: seq<Condition>,
    lastReconciled: Option<Time>,
    matchedResourcesCount: int,
    lastError: string,
    observedGeneration: int)

  datatype RuleMeta = RuleMeta(namespace: string, name: string, generation: int)

  /** The rule as the API server returns it. */
  datatype RuleObject = RuleObject(
    meta: RuleMeta,
    spec: ClassificationRuleSpec,
    status: ClassificationRuleStatus)

  /** The rule a reconcile works on: only its status is changed in place. */
  class ClassificationRule {
    const meta: RuleMeta
    const spec: ClassificationRuleSpec
    var status: ClassificationRuleStatus

    constructor (obj: RuleObject)
      ensures meta == obj.meta && spec == obj.spec && status == obj.status
    {
      meta := obj.meta;
      spec := obj.spec;
      status := obj.status;
    }
  }
}
