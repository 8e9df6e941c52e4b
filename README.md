# Autolabeller controller core in Dafny

Autolabeller is a Kubernetes controller. Each `ClassificationRule` names a
target kind (Pod, Node or Deployment), match criteria and a set of labels. On
every reconcile the controller:

1. lists the objects of that kind, with list options built from the criteria
   (the "pushdown" filters);
2. runs the kind's in-memory matcher over each listed object;
3. writes the rule's labels onto every match whose labels differ, and updates
   that object;
4. records the outcome in the rule's status conditions;
5. asks to be requeued after the rule's refresh interval.

This project models that decision logic and proves what it does.

- **Checks** (`checks.dfy`): the shared vocabulary of the matchers.
  - Every matcher returns a boolean and a trail of the fields that matched. It
    stops at the first failing check.
  - A trail is modelled as a chain of check outcomes (`Then`).
  - Go's map iteration order is not fixed. The methods therefore pick keys
    nondeterministically and return, as a ghost, the order they used.
  - Each matcher's boolean is proved equal to an order-free `Accepts`
    predicate. The trail length is proved from the criteria alone: one entry
    per specified check on success, fewer on failure.
- **NodeMatch**, **PodMatch**, **PodMatchFull**, **DeploymentMatch**: the four
  matchers, as loop-based methods proved against their trail functions.
  - PodMatch is the matcher that skips namespace and labels because the list
    call already filtered them.
  - PodMatchFull is the older full matcher in `helpers.go`.
- **Pushdown**: `FilterPodList`, `FilterDeploymentList` and `FilterNodeList`,
  with what the list options they emit admit.
  - A list call applies its options in order, as controller-runtime's client
    does: a namespace option scopes the list, `MatchingLabels` adds its
    equalities to the label selector built so far, and `MatchingLabelsSelector`
    replaces that selector (`ListAdmits`).
  - So when `FilterNodeList` builds a set-based arch/os term, the common-label
    and single-value selectors appended before it are dropped from the listing
    (`NodeListingMeaning`, `SelectorReplacesEarlierLabels`). The in-memory
    matcher still checks those criteria.
  - The key result: a node the matcher accepts is never filtered out by the
    node pushdown (`NodePushdownSound`). For pods, pushdown plus the pushed
    matcher equals the full matcher (`PodPushdownEquivalent`).
  - Both results assume no criterion asks for an empty label value. A label
    selector needs the key present, while the matcher reads a missing label as
    "" (`EmptyLabelValueExcluded` shows the difference).
- **LabelApplier**: `ApplyLabelsToObject` on an object whose label map it
  changes in place.
- **Conditions**: `SetCondition` as a type-keyed upsert into the rule's
  condition list.
- **Controller**: `Reconcile`.
  - The API server is not called. What it answers is an input: the fetched
    rule, the stored objects, which list or update fails, and whether the final
    status write fails.
  - The calls the cycle makes are the output: the list request, the object
    updates, the status writes, and the requeue delay and error it returns.
  - The rule is a class whose `status` the cycle changes step by step, as the
    Go code changes `rule.Status`.
  - `matched` is an int32 counter and wraps around like one.

Where the API documentation and the code disagree, the model follows the code.

- **Name and image criteria:** the field comments promise wildcards, but the
  code compares with exact equality.
- **Replicas and kernelVersion:** the comments promise comparison operators,
  but the code does exact decimal equality and substring containment.
- **`ConflictPolicy`** is never read, and labels are always overwritten.
- **Deployment rules** build their list options with `FilterPodList`, not
  `FilterDeploymentList`. The two produce the same options.

## Model

Source paths are relative to the repository root.

| member | source | states |
|---|---|---|
| Checks.ExactCheckMeaning | internal/controller/matchinglogic/node_match.go:21-26 | an exact check passes iff the criterion is empty or equals the value; it adds one trail entry when specified and none on failure |
| Checks.ContainsCheckMeaning | internal/controller/matchinglogic/node_match.go:89-102 | a containment check passes iff the criterion is empty or a substring of the value |
| Checks.EntriesCheckMeaning | internal/controller/matchinglogic/node_match.go:27-38 | a map check over any key order passes iff every listed key looks up (absent as "") to its listed value; one trail entry per key on success |
| Checks.EntriesCheckComplete | internal/controller/matchinglogic/node_match.go:27-38 | over an enumeration of the criteria map, the map check passes iff all entries match, independent of the enumeration order |
| Checks.CheckEntries | internal/controller/matchinglogic/node_match.go:27-32 | the range loop over a criteria map, in an order it picks, yields the entries check for that order |
| Checks.SubsetCheckMeaning | internal/controller/matchinglogic/node_match.go:80-85 | a subset check passes iff every listed string is present; one trail entry per listed string on success |
| Checks.CheckSubset | internal/controller/matchinglogic/node_match.go:80-85 | the loop over wanted taints, with its early return, yields the subset check |
| Checks.MembershipCheckMeaning | internal/controller/matchinglogic/node_match.go:43-56 | a membership check passes iff the list is empty or holds the value |
| Checks.CheckMembership | internal/controller/matchinglogic/node_match.go:43-56 | the `found` loop yields the membership check and finds the value iff some listed entry equals it |
| NodeMatch.CommonSpecMeaning | internal/controller/matchinglogic/node_match.go:20-39 | the common section passes iff the name is equal when given and every label and annotation looks up equal; the namespace is never consulted |
| NodeMatch.SectionSpecMeaning | internal/controller/matchinglogic/node_match.go:41-103 | the node section passes iff arch and os are in their lists when given, every wanted taint is present as key=value:effect, and kernel and runtime contain their criteria |
| NodeMatch.MatchSpecMeaning | internal/controller/matchinglogic/node_match.go:14-106 | the node trail passes iff the node is accepted; on success its length is one per specified check, key and taint, on failure shorter |
| NodeMatch.ArchTrailNamesNodeValue | internal/controller/matchinglogic/node_match.go:43-56 | on a match with arch labels, the node's arch is listed and the first trail entry names it |
| NodeMatch.MoreTaintsStillMatch | internal/controller/matchinglogic/node_match.go:75-86 | adding taints to a node never turns a match into a non-match |
| NodeMatch.CheckMetadata | internal/controller/matchinglogic/node_match.go:27-38 | the label and annotation loops yield the entries checks in the orders they used |
| NodeMatch.CheckCommon | internal/controller/matchinglogic/node_match.go:20-39 | the common-criteria code yields the common trail for the key orders it used |
| NodeMatch.CollectTaints | internal/controller/matchinglogic/node_match.go:76-79 | the built set holds exactly each taint rendered as key=value:effect |
| NodeMatch.CheckTaints | internal/controller/matchinglogic/node_match.go:75-86 | the taint code yields the subset check against the rendered taints |
| NodeMatch.CheckHost | internal/controller/matchinglogic/node_match.go:75-102 | the taint, kernel and runtime code yields the chain of those three checks |
| NodeMatch.CheckSection | internal/controller/matchinglogic/node_match.go:41-103 | the node-criteria code yields the section trail |
| NodeMatch.MatchesNodeDetailed | internal/controller/matchinglogic/node_match.go:14-106 | returns the trail for the key order it used, matches iff the node is accepted, and a nil criteria tree matches with an empty trail |
| NodeMatch.MatchesNode | internal/controller/matchinglogic/node_match.go:109-112 | the wrapper's boolean is acceptance, the same as the detailed matcher's |
| PodMatch.FirstHitMeaning | internal/controller/matchinglogic/pod_match.go:68-74 | the first hit is "" or a container image, and it is non-empty iff some listed image is present with all earlier ones absent and it is not "" |
| PodMatch.EmptyFirstHitFails | internal/controller/matchinglogic/pod_match.go:68-77 | when the first listed image is "" and some container has image "", the check fails even if later images match |
| PodMatch.ImagesCheckMeaning | internal/controller/matchinglogic/pod_match.go:63-79 | the images check passes iff the list is empty or its first hit is non-empty; one trail entry on success, none on failure |
| PodMatch.HeadSpecMeaning | internal/controller/matchinglogic/pod_match.go:37-48 | hostNetwork is checked only when set, and serviceAccount is exact only when non-empty |
| PodMatch.TailSpecMeaning | internal/controller/matchinglogic/pod_match.go:57-79 | restartPolicy is exact when non-empty, and the images check decides the rest |
| PodMatch.SectionSpecMeaning | internal/controller/matchinglogic/pod_match.go:36-80 | the pod section passes iff head, every nodeSelector pair, and tail pass; trail lengths as for the node matcher |
| PodMatch.CommonSpecMeaning | internal/controller/matchinglogic/pod_match.go:20-34 | the common section checks only name and annotations |
| PodMatch.MatchSpecMeaning | internal/controller/matchinglogic/pod_match.go:14-82 | the pod trail passes iff the pod is accepted; full trail on success, shorter on failure |
| PodMatch.NamespaceAndLabelsIgnored | internal/controller/matchinglogic/pod_match.go:20-34 | the trail does not depend on the pod's namespace or labels |
| PodMatch.CollectImages | internal/controller/matchinglogic/pod_match.go:64-67 | the built set is exactly the containers' images |
| PodMatch.CheckImages | internal/controller/matchinglogic/pod_match.go:63-79 | the `matchedAny` loop yields the images check |
| PodMatch.CheckHead | internal/controller/matchinglogic/pod_match.go:37-48 | the hostNetwork and serviceAccount code yields the head checks |
| PodMatch.CheckTail | internal/controller/matchinglogic/pod_match.go:57-79 | the restartPolicy and images code yields the tail checks |
| PodMatch.CheckSection | internal/controller/matchinglogic/pod_match.go:36-80 | the pod-criteria code yields the section trail for the nodeSelector order it used |
| PodMatch.CheckCommon | internal/controller/matchinglogic/pod_match.go:20-34 | the common-criteria code yields the common trail for the annotation order it used |
| PodMatch.MatchesPodDetailed | internal/controller/matchinglogic/pod_match.go:14-82 | returns the trail, matches iff the pod is accepted, and a nil tree matches with an empty trail |
| PodMatchFull.CommonSpecMeaning | internal/controller/helpers/helpers.go:64-89 | namespace and name are exact when non-empty, and every label and annotation looks up equal |
| PodMatchFull.MatchSpecMeaning | internal/controller/helpers/helpers.go:58-138 | the full trail passes iff the pod is accepted; full trail on success, shorter on failure |
| PodMatchFull.AgreesWithPushedMatcher | internal/controller/helpers/helpers.go:58-138 | for a pod in the criteria's namespace with the criteria's labels, the full matcher and the pushed matcher agree |
| PodMatchFull.OtherNamespaceRejected | internal/controller/helpers/helpers.go:65-70 | a pod outside a given namespace is rejected |
| PodMatchFull.CheckMetadata | internal/controller/helpers/helpers.go:77-88 | the label and annotation loops yield their entries checks |
| PodMatchFull.CheckCommon | internal/controller/helpers/helpers.go:64-89 | the common-criteria code yields the full common trail |
| PodMatchFull.MatchesPodDetailed | internal/controller/helpers/helpers.go:58-138 | returns the full trail, matches iff accepted, and a nil tree matches with an empty trail; the pod section is the same as the pushed matcher's |
| PodMatchFull.MatchesPod | internal/controller/helpers/helpers.go:141-144 | the wrapper's boolean is acceptance |
| DeploymentMatch.ReplicasCheckMeaning | internal/controller/matchinglogic/deployment_match.go:38-47 | a given replicas criterion matches iff it is a canonical decimal whose value is the desired count (1 when unset) |
| DeploymentMatch.NonNumeralReplicasNeverMatch | internal/controller/matchinglogic/deployment_match.go:43 | ">3", "==5" and "03" never match any deployment |
| DeploymentMatch.UnsetReplicasMeansOne | internal/controller/matchinglogic/deployment_match.go:39-42 | with no replicas set, a criterion matches iff it is "1" |
| DeploymentMatch.SectionSpecMeaning | internal/controller/matchinglogic/deployment_match.go:36-71 | replicas and strategy are exact when given, and a given pull policy needs some template container with it, so no containers means no match |
| DeploymentMatch.EmptySectionMatchesAll | internal/controller/matchinglogic/deployment_match.go:38-58 | empty criterion strings skip their checks and add nothing to the trail |
| DeploymentMatch.MatchSpecMeaning | internal/controller/matchinglogic/deployment_match.go:14-74 | the deployment trail passes iff accepted (name and annotations only from the common section); full trail on success, shorter on failure |
| DeploymentMatch.CheckPullPolicy | internal/controller/matchinglogic/deployment_match.go:58-70 | the `matched` loop yields the pull-policy check |
| DeploymentMatch.CheckSection | internal/controller/matchinglogic/deployment_match.go:36-71 | the deployment-criteria code, with its `desired` default, yields the section trail |
| DeploymentMatch.MatchesDeploymentDetailed | internal/controller/matchinglogic/deployment_match.go:14-74 | returns the trail, matches iff accepted, and a nil tree matches with an empty trail |
| Text.FormatRoundTrip | internal/controller/matchinglogic/deployment_match.go:43 | reading back the decimal rendering of an integer gives the integer |
| Text.FormatInjective | internal/controller/matchinglogic/deployment_match.go:43 | two counts render alike iff they are equal |
| Text.ParseRoundTrip | internal/controller/matchinglogic/deployment_match.go:43 | a canonical decimal string is the rendering of its own value |
| Pushdown.AdmitsAllAppend | internal/controller/helpers/general_helpers.go:63-79 | appending options admits exactly what both parts admit |
| Pushdown.InRequirementFor | internal/controller/helpers/general_helpers.go:114-125 | NewRequirement succeeds iff the values are non-empty and every one is a valid label value; it then yields the "In" term over that key and those values |
| Pushdown.FilterPodList | internal/controller/helpers/general_helpers.go:63-79 | appends the namespaced filters: nothing for a nil tree, a namespace option iff the namespace is non-empty, and a label option iff the labels are non-empty |
| Pushdown.FilterDeploymentList | internal/controller/helpers/general_helpers.go:132-148 | appends exactly the same options as FilterPodList |
| Pushdown.BuildNodeSelector | internal/controller/helpers/general_helpers.go:111-125 | the selector holds one "In" term per arch or os list with more than one valid value, and `added` says it is non-empty |
| Pushdown.AppendNodeSection | internal/controller/helpers/general_helpers.go:97-129 | appends an exact selector per single arch or os value and one combined selector when terms were added |
| Pushdown.FilterNodeList | internal/controller/helpers/general_helpers.go:81-130 | appends the common-label option and then the node-section options |
| Pushdown.AdmitsAllListed | internal/controller/helpers/general_helpers.go:81-130 | a list never drops an object that each of its options admits, whatever replaces what |
| Pushdown.NamespacedListing | internal/controller/helpers/general_helpers.go:63-79 | a list with the Pod/Deployment options returns exactly what the namespace option and the equality selector both admit |
| Pushdown.EqualitiesListed | internal/controller/helpers/general_helpers.go:89-109 | a list whose options are all equality selectors returns exactly what every option admits |
| Pushdown.NodeListingMeaning | internal/controller/helpers/general_helpers.go:81-130 | a Node list returns what the set-based selector admits when one was built, since it replaces the earlier selectors; otherwise what every option admits |
| Pushdown.SelectorReplacesEarlierLabels | internal/controller/helpers/general_helpers.go:89-128 | with commonMatch labels {team: ""} and two architectures, a node labelled arch=amd64 without `team` is listed and accepted by the node matcher, though the common-label option alone would exclude it |
| Pushdown.NamespacedFiltersMeaning | internal/controller/helpers/general_helpers.go:63-79 | whatever a list with the namespaced filters returns is in scope (namespace and labels); with no empty label value, they admit exactly what is in scope |
| Pushdown.PodPushdownEquivalent | internal/controller/matchinglogic/pod_match.go:12-21 | with no empty label value, the full matcher accepts iff a list with the filters returns the pod and the pushed matcher accepts it |
| Pushdown.EmptyLabelValueExcluded | internal/controller/helpers/general_helpers.go:75-77 | a label criterion with an empty value is accepted by the full matcher on a pod without that label, yet a list with the label filter does not return the pod |
| Pushdown.NodeFiltersNeverNamespaced | internal/controller/helpers/general_helpers.go:81-130 | the node filters never contain a namespace option |
| Pushdown.NodeSectionFiltersSound | internal/controller/helpers/general_helpers.go:97-129 | a node whose section the matcher accepts passes every arch and os selector, when no listed value is empty |
| Pushdown.NodePushdownSound | internal/controller/helpers/general_helpers.go:81-130 | with no empty criterion value, any node the node matcher accepts passes every filter FilterNodeList emits, so a list with them returns it |
| Pushdown.InvalidValueDropsTerm | internal/controller/helpers/general_helpers.go:114-119 | an invalid arch value makes NewRequirement fail, and the term is silently dropped |
| LabelApplier.MergeLabels | internal/controller/helpers/general_helpers.go:50-56 | after applying, every rule key reads as its rule value and every other key as before; a key is added only when its value is non-empty |
| LabelApplier.ChangedIffDifferent | internal/controller/helpers/general_helpers.go:50-60 | the changed flag is set iff the merged labels differ from the current ones |
| LabelApplier.MergeIdempotent | internal/controller/helpers/general_helpers.go:50-60 | a second application changes nothing and reports no change |
| LabelApplier.EmptyRuleChangesNothing | internal/controller/helpers/general_helpers.go:43-45 | an empty rule map reports no change and leaves the labels unchanged |
| LabelApplier.OverwritesConflicts | internal/controller/helpers/general_helpers.go:51-56 | a conflicting label is overwritten, whatever the conflict policy says |
| LabelApplier.LabelledObject.constructor | internal/controller/helpers/general_helpers.go:46-49 | the object starts with the given label map |
| LabelApplier.ApplyLabelsToObject | internal/controller/helpers/general_helpers.go:42-61 | the object's labels become the merge of its old labels with the rule, and the result is true iff some rule key read differently before |
| Conditions.FirstIndexOfType | internal/controller/helpers/general_helpers.go:23-29 | the search finds the first entry of the type, or reports that there is none |
| Conditions.UpsertSets | internal/controller/helpers/general_helpers.go:22-32 | after the upsert, the condition of that type is the new one |
| Conditions.UpsertShape | internal/controller/helpers/general_helpers.go:22-32 | an existing type is replaced at its first index and the length is kept; otherwise the new entry is appended |
| Conditions.UpsertKeepsOthers | internal/controller/helpers/general_helpers.go:22-32 | the entries of other types, and their order, are unchanged |
| Conditions.UpsertLeavesOtherTypes | internal/controller/helpers/general_helpers.go:22-32 | the condition of any other type is unchanged |
| Conditions.UpsertKeepsUnique | internal/controller/helpers/general_helpers.go:22-32 | at most one entry per type is preserved |
| Conditions.UpsertOverwrites | internal/controller/helpers/general_helpers.go:22-32 | two upserts of one type are equivalent to the second alone |
| Conditions.SetCondition | internal/controller/helpers/general_helpers.go:13-33 | the rule's conditions become the upsert of a condition with the given type, status, reason and message, the rule's generation and the current time; nothing else in the status changes |
| Api.ClassificationRule.constructor | api/v1alpha1/classificationrule_types.go:112-126 | the in-memory rule holds the fetched metadata, spec and status |
| Controller.Count32Wraps | internal/controller/classificationrule_controller.go:98 | n int32 increments from zero give n wrapped into the int32 range |
| Controller.Count32Exact | internal/controller/classificationrule_controller.go:161 | below 2^31 increments the counter is exact |
| Controller.MatchCandidate | internal/controller/classificationrule_controller.go:90 | runs the matcher of the object's kind and returns acceptance |
| Controller.LabelIfMatching | internal/controller/classificationrule_controller.go:90-91 | an update is produced iff the object matches and some rule label differs on it, and it carries the merged labels |
| Controller.RecordUpdateFailure | internal/controller/classificationrule_controller.go:93-97 | a failed update leaves the status with Ready=False/UpdateFailed and that error |
| Controller.ProcessCandidate | internal/controller/classificationrule_controller.go:88-101 | one listed object: the update it sends, the error it meets, and the status after it |
| Controller.ProcessCandidates | internal/controller/classificationrule_controller.go:88-101 | the updates are the eligible objects in list order; a status write follows each failure; `matched` counts the successful updates (int32) |
| Controller.PrepareListing | internal/controller/classificationrule_controller.go:102-110 | for a Node rule with a namespace, Degraded=True/NamespaceIgnoredForNode is set; the list options are the kind's pushdown |
| Controller.FinishCycle | internal/controller/classificationrule_controller.go:161-181 | sets the count, the observed generation and Ready=True/Applied, writes the status, then computes the requeue; the rule's status ends as the last status written |
| Controller.Requeue | internal/controller/classificationrule_controller.go:168-181 | an empty interval gives 30s and a parseable one its duration; an unparseable one writes Degraded=True/InvalidRefreshInterval and returns no requeue and no error; the rule's status changes only by that Degraded write |
| Controller.RecordListFailure | internal/controller/classificationrule_controller.go:83-87 | a failed list writes Ready=False/ListFailed with the kind's message, returns the list error with no updates, and leaves the rule holding the status it wrote |
| Controller.RunCycle | internal/controller/classificationrule_controller.go:75-181 | a supported kind runs the whole cycle specification: listing, list failure, updates and finish; the rule's status ends as the last status written |
| Controller.Reconcile | internal/controller/classificationrule_controller.go:55-182 | not found gives no error and no requeue; another fetch error is returned; suspended sets Suspended=True/RuleSuspended with no list or update; an unsupported kind sets Ready=False/UnsupportedTarget; a supported kind runs the cycle |
| Controller.ListObjectsMeaning | internal/controller/classificationrule_controller.go:83 | the list returns exactly the stored objects of the kind that the options, applied in order, admit |
| Controller.AttemptsMeaning | internal/controller/classificationrule_controller.go:88-92 | every update comes from a listed, eligible object, and every such object is updated |
| Controller.SelectedMeaning | internal/controller/classificationrule_controller.go:76-154 | a cycle updates exactly the stored objects that are listed, match, and need a label change |
| Controller.PodSelectionIsFullMatch | internal/controller/classificationrule_controller.go:76-101 | for Pod rules, being listed and matched is the full matcher's verdict, when no label value is empty |
| Controller.PodSelected | internal/controller/classificationrule_controller.go:76-101 | a Pod cycle updates exactly the pods the full matcher accepts whose labels need changing |
| Controller.NodeSelectedMissesNone | internal/controller/classificationrule_controller.go:102-129 | a Node cycle updates every node the matcher accepts whose labels need changing; the pushdown drops none |
| Controller.DeploymentSelectionInScope | internal/controller/classificationrule_controller.go:130-154 | for Deployment rules, the FilterPodList options plus the matcher select exactly the in-scope, accepted deployments that need changing |
| Controller.ListFailureAborts | internal/controller/classificationrule_controller.go:83-87 | a list failure updates nothing, writes Ready=False/ListFailed with the error, and returns the error with no requeue |
| Controller.FailureWritesReport | internal/controller/classificationrule_controller.go:93-97 | each failure write reports Ready=False/UpdateFailed with that update's error |
| Controller.FinalStatusReport | internal/controller/classificationrule_controller.go:161-163 | the final status holds the count, the generation, and Ready=True/Applied with the count in its message |
| Controller.FinishReportsApplied | internal/controller/classificationrule_controller.go:161-166 | after the failure writes comes one with the count of successful updates and Ready=True/Applied, overwriting any UpdateFailed; the count is exact below 2^31 |
| Controller.FinishRequeue | internal/controller/classificationrule_controller.go:164-181 | a failing status write returns its error with no requeue; otherwise 30s, the parsed interval, or Degraded with Ready still Applied |
| Controller.SecondCycleQuiet | internal/controller/classificationrule_controller.go:88-101 | once a cycle's updates have gone through, the next cycle over the same store updates nothing |

## Left out

- **Cluster I/O:** `Get`, `List`, `Update` and `Status().Update` are not called. Their answers are inputs (`FetchResult`, `Cluster`). Errors of the intermediate status writes are ignored, as in the code. The final write's error is an input.
- **Status writes:** they are recorded as the status they send. The resourceVersion the server returns is not modelled.
- **Time and durations:** `time.ParseDuration` is a function parameter and `metav1.Now()` is one `now` per cycle. Every condition write carries `now`, as `SetCondition` stamps it on every write.
- **Logging and wiring:** the logger in `SetConditionWithLog` and `SetupWithManager` are not modelled. Concurrency, the work queue and update retries are also left out.
- **Label selectors:** a selector is modelled as "key present with this value" or "value in this set".
  - `labels.NewRequirement` key validation is not modelled; only the value check that decides whether a term is dropped is.
  - Options on one list call are applied in order with controller-runtime's semantics (recent releases): `MatchingLabels` is added to the selector built so far and `MatchingLabelsSelector` replaces it. That library is not part of this model.
- **Unread fields:** `CPURequests`, `MemoryRequests`, `CPULimits`, `MemoryLimits`, `LastReconciled` and `LastError` are never read, so they are not modelled.
- **API-server markers:** the kubebuilder enum and default markers are enforced by the API server, not by this code.
- **Documented but not implemented:** `ConflictPolicy`, wildcard names and images, and the comparison operators documented for replicas and kernelVersion. The model has the code's exact, substring and decimal comparisons.
- **Map iteration order:** trail entries for labels, annotations and nodeSelector follow the key order the methods pick, which stands for Go's randomised order. The boolean results are proved not to depend on it.
- **Object labels:** the labels a listed object carries are modelled as a `LabelledObject`. The aliasing between the Go label map and the object is not modelled: the object's map is replaced when it changes.
