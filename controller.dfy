/**
 * Reconcile: one reconciliation cycle for one ClassificationRule. The API
 * server is not called: what it answers (the fetched rule, the objects it
 * lists, which updates fail, whether the final status write fails) is an
 * input, and the calls the cycle makes (the list request, the object
 * updates, the status writes) are the output. time.ParseDuration and
 * metav1.Now() are parameters.
 */
module Controller {
  import opened Wrappers
  import opened LabelMaps
  import opened Text
  import opened Api
  import opened Resources
  import opened Checks
  import opened Pushdown
  import opened LabelApplier
  import opened Conditions
  import NodeMatch
  import PodMatch
  import PodMatchFull
  import DeploymentMatch

  datatype FetchResult = Fetched(rule: RuleObject) | NotFound | FetchFailed(err: string)

  /** What the API server holds and how it answers during one cycle. */
  datatype Cluster = Cluster(
    objects: seq<Candidate>,               // every object, in the order a list returns them
    listError: Option<string>,             // the error of the list call, if it fails
    updateErrors: map<ObjectKey, string>,  // the error of updating each object whose update fails
    statusUpdateError: Option<string>)     // the error of the status write whose result is read

  datatype ListRequest = ListRequest(kind: string, opts: seq<ListOption>)

  /**
   * ctrl.Result{RequeueAfter} (0: no requeue) and the returned error, with
   * the calls made: the list request, every object update (with the labels it
   * writes) and every status write (the status it writes).
   */
  datatype ReconcileOutcome = ReconcileOutcome(
    requeueAfter: Duration,
    err: Option<string>,
    listed: Option<ListRequest>,
    updates: seq<Candidate>,
    statusWrites: seq<ClassificationRuleStatus>)

  const DefaultRequeue: Duration := 30 * Second

  // ----- int32 counter -----

  /** matched++ on an int32: the largest value wraps to the smallest. */
  function Inc32(x: Int32): Int32
  {
    if x == 0x7fff_ffff then -0x8000_0000 else x + 1
  }

  /** An int32 counter after `n` increments from 0. */
  function Count32(n: nat): Int32
  {
    if n == 0 then 0 else Inc32(Count32(n - 1))
  }

  /** `n` reduced into the int32 range, as two's complement arithmetic does. */
  function Wrap32(n: int): Int32
  {
    (n + 0x8000_0000) % 0x1_0000_0000 - 0x8000_0000
  }

  /** The counter wraps around exactly like int32 arithmetic. */
  lemma {:induction false} Count32Wraps(n: nat)
    ensures Count32(n) == Wrap32(n)
  {
    if n > 0 {
      Count32Wraps(n - 1);
      var w: int := Wrap32(n - 1);
      assert (w + 0x8000_0000) % 0x1_0000_0000 == (n - 1 + 0x8000_0000) % 0x1_0000_0000;
    }
  }

  /** Below 2^31 increments the counter is exact. */
  lemma Count32Exact(n: nat)
    requires n < 0x8000_0000
    ensures Count32(n) == n
  {
    Count32Wraps(n);
  }

  // ----- the pieces of a cycle -----

  predicate Supported(kind: string)
  {
    kind == "Pod" || kind == "Node" || kind == "Deployment"
  }

  /** The word the log and condition messages use for a kind. */
  function Noun(kind: string): string
  {
    if kind == "Pod" then "pod" else if kind == "Node" then "node" else "deployment"
  }

  /**
   * The list options each kind sends: Pods and Deployments both use
   * FilterPodList (when there are common criteria); Nodes use FilterNodeList
   * only when there is a node section.
   */
  function ListFilters(spec: ClassificationRuleSpec): seq<ListOption>
  {
    var mc := spec.matchCriteria;
    if spec.targetKind == "Node" then
      if mc.Some? && mc.value.nodeMatch.Some? then NodeFilters(mc) else []
    else if mc.Some? && mc.value.commonMatch.Some? then NamespacedFilters(mc) else []
  }

  /** Whether a list of `kind` with `opts` returns `c`. */
  predicate Listed(kind: string, opts: seq<ListOption>, c: Candidate)
  {
    c.Kind() == kind && ListAdmits(opts, c.Meta())
  }

  /** The objects a list of `kind` with `opts` returns, in store order. */
  function ListObjects(objects: seq<Candidate>, kind: string, opts: seq<ListOption>): (r: seq<Candidate>)
    ensures |r| <= |objects|
    ensures forall i | 0 <= i < |r| :: Listed(kind, opts, r[i])
    decreases |objects|
  {
    if objects == [] then []
    else
      var last := objects[|objects| - 1];
      ListObjects(objects[..|objects| - 1], kind, opts) + (if Listed(kind, opts, last) then [last] else [])
  }

  /** The matcher the cycle runs on each listed object of that kind. */
  ghost predicate Matches(mc: Option<MatchCriteria>, c: Candidate)
  {
    match c
    case PodItem(p) => PodMatch.Accepts(mc, p)
    case NodeItem(n) => NodeMatch.Accepts(mc, n)
    case DeploymentItem(d) => DeploymentMatch.Accepts(mc, d)
  }

  /** An object the cycle updates: it matches and some rule label reads differently on it. */
  ghost predicate Eligible(spec: ClassificationRuleSpec, c: Candidate)
  {
    Matches(spec.matchCriteria, c) && LabelsDiffer(c.Meta().labels, spec.labels)
  }

  function Labelled(spec: ClassificationRuleSpec, c: Candidate): Candidate
  {
    c.WithLabels(MergeLabels(c.Meta().labels, spec.labels))
  }

  /** The update calls for `items`, in order, each carrying the merged labels. */
  ghost function Attempts(items: seq<Candidate>, spec: ClassificationRuleSpec): (r: seq<Candidate>)
    ensures |r| <= |items|
    decreases |items|
  {
    if items == [] then []
    else
      var last := items[|items| - 1];
      Attempts(items[..|items| - 1], spec) + (if Eligible(spec, last) then [Labelled(spec, last)] else [])
  }

  /** The errors of the updates that fail, in order. */
  function FailureErrors(updates: seq<Candidate>, updateErrors: map<ObjectKey, string>): (r: seq<string>)
    ensures |r| <= |updates|
    decreases |updates|
  {
    if updates == [] then []
    else
      var last := updates[|updates| - 1];
      FailureErrors(updates[..|updates| - 1], updateErrors)
      + (if last.Key() in updateErrors then [updateErrors[last.Key()]] else [])
  }

  function StatusCondition(condType: string, status: ConditionStatus, reason: string, msg: string,
                           generation: int, now: Time): Condition
  {
    Condition(condType, status, generation, reason, msg, now)
  }

  /** The status with one condition set, as SetCondition leaves it. */
  function WithCondition(s: ClassificationRuleStatus, c: Condition): ClassificationRuleStatus
  {
    s.(conditions := Upsert(s.conditions, c))
  }

  function UpdateFailed(kind: string, err: string, generation: int, now: Time): Condition
  {
    StatusCondition("Ready", ConditionFalse, "UpdateFailed", "Failed to update " + Noun(kind) + " labels: " + err,
                    generation, now)
  }

  function Applied(count: Int32, generation: int, now: Time): Condition
  {
    StatusCondition("Ready", ConditionTrue, "Applied", "Applied labels to " + FormatInt(count) + " resources",
                    generation, now)
  }

  /** The status before listing: for Node rules a namespace criterion is reported as ignored. */
  function BaseStatus(obj: RuleObject, now: Time): ClassificationRuleStatus
  {
    var mc := obj.spec.matchCriteria;
    if obj.spec.targetKind == "Node" && mc.Some? && mc.value.commonMatch.Some? && mc.value.commonMatch.value.namespace != ""
    then WithCondition(obj.status, StatusCondition("Degraded", ConditionTrue, "NamespaceIgnoredForNode",
                                                   "commonMatch.namespace is ignored for Node targetKind",
                                                   obj.meta.generation, now))
    else obj.status
  }

  /** The status write after each failed update: Ready=False/UpdateFailed with that update's error. */
  function FailureWrites(base: ClassificationRuleStatus, kind: string, failed: seq<string>, generation: int, now: Time)
    : (r: seq<ClassificationRuleStatus>)
    ensures |r| == |failed|
    ensures forall i | 0 <= i < |failed| :: r[i] == WithCondition(base, UpdateFailed(kind, failed[i], generation, now))
    decreases |failed|
  {
    if failed == [] then []
    else
      FailureWrites(base, kind, failed[..|failed| - 1], generation, now)
      + [WithCondition(base, UpdateFailed(kind, failed[|failed| - 1], generation, now))]
  }

  /** The final status write: the count, the observed generation and Ready=True/Applied. */
  function FinalStatus(base: ClassificationRuleStatus, count: Int32, generation: int, now: Time): ClassificationRuleStatus
  {
    WithCondition(base.(matchedResourcesCount := count, observedGeneration := generation), Applied(count, generation, now))
  }

  /**
   * The end of a cycle whose list call succeeded: the count and
   * Ready=True/Applied are written after any failure writes, and the requeue
   * interval comes from refreshInterval (default 30s; one that does not parse
   * is reported Degraded and stops the requeue).
   */
  function FinishSpec(spec: ClassificationRuleSpec, generation: int, base: ClassificationRuleStatus,
                      request: ListRequest, updates: seq<Candidate>, failed: seq<string>,
                      statusUpdateError: Option<string>, parseDuration: string -> Option<Duration>, now: Time)
    : ReconcileOutcome
    requires |failed| <= |updates|
  {
    var kind := spec.targetKind;
    var count := Count32(|updates| - |failed|);
    var final := FinalStatus(base, count, generation, now);
    var writes := FailureWrites(base, kind, failed, generation, now) + [final];
    if statusUpdateError.Some? then
      ReconcileOutcome(0, statusUpdateError, Some(request), updates, writes)
    else if spec.refreshInterval == "" then
      ReconcileOutcome(DefaultRequeue, None, Some(request), updates, writes)
    else if parseDuration(spec.refreshInterval).Some? then
      ReconcileOutcome(parseDuration(spec.refreshInterval).value, None, Some(request), updates, writes)
    else
      var degraded := StatusCondition("Degraded", ConditionTrue, "InvalidRefreshInterval",
                                      "RefreshInterval must be a valid duration (e.g. 30s, 5m)", generation, now);
      ReconcileOutcome(0, None, Some(request), updates, writes + [WithCondition(final, degraded)])
  }

  /** The updates a cycle sends: the labelled objects among those its list call returns. */
  ghost function Selected(spec: ClassificationRuleSpec, objects: seq<Candidate>): (r: seq<Candidate>)
    ensures |r| <= |objects|
  {
    Attempts(ListObjects(objects, spec.targetKind, ListFilters(spec)), spec)
  }

  /** A cycle whose list call fails: Ready=False/ListFailed is written and the error returned. */
  function ListFailedSpec(kind: string, base: ClassificationRuleStatus, request: ListRequest, err: string,
                          generation: int, now: Time): ReconcileOutcome
  {
    var msg := "Failed to list " + Noun(kind) + "s: " + err;
    ReconcileOutcome(0, Some(err), Some(request), [],
                     [WithCondition(base, StatusCondition("Ready", ConditionFalse, "ListFailed", msg, generation, now))])
  }

  /** A cycle of a supported kind, from the listing on. */
  ghost function CycleSpec(obj: RuleObject, cluster: Cluster, parseDuration: string -> Option<Duration>, now: Time)
    : ReconcileOutcome
  {
    var base := BaseStatus(obj, now);
    var request := ListRequest(obj.spec.targetKind, ListFilters(obj.spec));
    if cluster.listError.Some? then
      ListFailedSpec(obj.spec.targetKind, base, request, cluster.listError.value, obj.meta.generation, now)
    else
      var updates := Selected(obj.spec, cluster.objects);
      FinishSpec(obj.spec, obj.meta.generation, base, request, updates, FailureErrors(updates, cluster.updateErrors),
                 cluster.statusUpdateError, parseDuration, now)
  }

  lemma CycleSpecCases(obj: RuleObject, cluster: Cluster, parseDuration: string -> Option<Duration>, now: Time)
    ensures var request := ListRequest(obj.spec.targetKind, ListFilters(obj.spec));
            var updates := Selected(obj.spec, cluster.objects);
            CycleSpec(obj, cluster, parseDuration, now)
            == if cluster.listError.Some?
               then ListFailedSpec(obj.spec.targetKind, BaseStatus(obj, now), request, cluster.listError.value,
                                   obj.meta.generation, now)
               else FinishSpec(obj.spec, obj.meta.generation, BaseStatus(obj, now), request, updates,
                               FailureErrors(updates, cluster.updateErrors), cluster.statusUpdateError, parseDuration, now)
  {
  }

  // ----- the cycle -----

  lemma AttemptsStep(items: seq<Candidate>, i: nat, spec: ClassificationRuleSpec)
    requires i < |items|
    ensures Attempts(items[..i + 1], spec)
         == Attempts(items[..i], spec) + (if Eligible(spec, items[i]) then [Labelled(spec, items[i])] else [])
  {
    assert items[..i + 1][..i] == items[..i];
  }

  lemma FailureStep(updates: seq<Candidate>, u: Candidate, updateErrors: map<ObjectKey, string>)
    ensures FailureErrors(updates + [u], updateErrors)
         == FailureErrors(updates, updateErrors) + (if u.Key() in updateErrors then [updateErrors[u.Key()]] else [])
  {
    assert (updates + [u])[..|updates|] == updates;
  }

  lemma FailureWritesStep(base: ClassificationRuleStatus, kind: string, failed: seq<string>, err: string,
                          generation: int, now: Time)
    ensures FailureWrites(base, kind, failed + [err], generation, now)
         == FailureWrites(base, kind, failed, generation, now) + [WithCondition(base, UpdateFailed(kind, err, generation, now))]
  {
    assert (failed + [err])[..|failed|] == failed;
  }

  /** Runs the matcher of the object's kind. */
  method MatchCandidate(mc: Option<MatchCriteria>, c: Candidate) returns (ok: bool)
    ensures ok <==> Matches(mc, c)
  {
    var fields: seq<string>;
    ghost var order: KeyOrder;
    match c
    case PodItem(p) =>
      ok, fields, order := PodMatch.MatchesPodDetailed(mc, p);
    case NodeItem(n) =>
      ok, fields, order := NodeMatch.MatchesNodeDetailed(mc, n);
    case DeploymentItem(d) =>
      ok, fields, order := DeploymentMatch.MatchesDeploymentDetailed(mc, d);
  }

  /** Match one listed object and apply the rule labels to it: the update to send, if any. */
  method LabelIfMatching(spec: ClassificationRuleSpec, c: Candidate) returns (update: Option<Candidate>)
    ensures update.Some? <==> Eligible(spec, c)
    ensures update.Some? ==> update.value == Labelled(spec, c)
  {
    var ok := MatchCandidate(spec.matchCriteria, c);
    if !ok {
      return None;
    }
    var obj := new LabelledObject(c.Meta().labels);
    var changed := ApplyLabelsToObject(obj, spec.labels);
    if !changed {
      return None;
    }
    return Some(c.WithLabels(obj.labels));
  }

  /** The rule status after the failed updates so far: the last one's Ready=False/UpdateFailed, if any. */
  function StatusAfterFailures(start: ClassificationRuleStatus, kind: string, failed: seq<string>,
                               generation: int, now: Time): ClassificationRuleStatus
  {
    if failed == [] then start
    else WithCondition(start, UpdateFailed(kind, failed[|failed| - 1], generation, now))
  }

  /** The error of sending `update`, if the update fails. */
  function UpdateError(update: Option<Candidate>, updateErrors: map<ObjectKey, string>): Option<string>
  {
    if update.Some? && update.value.Key() in updateErrors then Some(updateErrors[update.value.Key()]) else None
  }

  /** Record a failed update; it replaces the Ready condition of any earlier failure. */
  method RecordUpdateFailure(rule: ClassificationRule, err: string, now: Time,
                             ghost start: ClassificationRuleStatus, ghost failed: seq<string>)
    requires rule.status == StatusAfterFailures(start, rule.spec.targetKind, failed, rule.meta.generation, now)
    modifies rule
    ensures rule.status == StatusAfterFailures(start, rule.spec.targetKind, failed + [err], rule.meta.generation, now)
  {
    var kind := rule.spec.targetKind;
    if failed != [] {
      UpsertOverwrites(start.conditions, UpdateFailed(kind, failed[|failed| - 1], rule.meta.generation, now),
                       UpdateFailed(kind, err, rule.meta.generation, now));
    }
    SetCondition(rule, "Ready", ConditionFalse, "UpdateFailed", "Failed to update " + Noun(kind) + " labels: " + err, now);
  }

  /**
   * One listed object: label it when it matches, send the update when a label
   * changed, and record a failed update on the rule.
   */
  method ProcessCandidate(rule: ClassificationRule, c: Candidate, updateErrors: map<ObjectKey, string>, now: Time,
                          ghost start: ClassificationRuleStatus, ghost failed: seq<string>)
    returns (update: Option<Candidate>, err: Option<string>)
    requires rule.status == StatusAfterFailures(start, rule.spec.targetKind, failed, rule.meta.generation, now)
    modifies rule
    ensures update.Some? <==> Eligible(rule.spec, c)
    ensures update.Some? ==> update.value == Labelled(rule.spec, c)
    ensures err == UpdateError(update, updateErrors)
    ensures err.Some? ==> rule.status == StatusAfterFailures(start, rule.spec.targetKind, failed + [err.value],
                                                             rule.meta.generation, now)
    ensures err.None? ==> rule.status == old(rule.status)
  {
    update := LabelIfMatching(rule.spec, c);
    err := None;
    if update.Some? && update.value.Key() in updateErrors {
      err := Some(updateErrors[update.value.Key()]);
      RecordUpdateFailure(rule, err.value, now, start, failed);
    }
  }

  /** What the loop over the listed objects has done after the first `i` of them. */
  ghost predicate Progress(spec: ClassificationRuleSpec, generation: int, items: seq<Candidate>, i: nat,
                           updateErrors: map<ObjectKey, string>, now: Time, start: ClassificationRuleStatus,
                           matched: Int32, updates: seq<Candidate>, writes: seq<ClassificationRuleStatus>,
                           failed: seq<string>, status: ClassificationRuleStatus)
  {
    i <= |items|
    && updates == Attempts(items[..i], spec)
    && failed == FailureErrors(updates, updateErrors)
    && matched == Count32(|updates| - |failed|)
    && writes == FailureWrites(start, spec.targetKind, failed, generation, now)
    && status == StatusAfterFailures(start, spec.targetKind, failed, generation, now)
  }

  lemma ProgressSkip(spec: ClassificationRuleSpec, generation: int, items: seq<Candidate>, i: nat,
                     updateErrors: map<ObjectKey, string>, now: Time, start: ClassificationRuleStatus,
                     matched: Int32, updates: seq<Candidate>, writes: seq<ClassificationRuleStatus>,
                     failed: seq<string>, status: ClassificationRuleStatus)
    requires i < |items| && !Eligible(spec, items[i])
    requires Progress(spec, generation, items, i, updateErrors, now, start, matched, updates, writes, failed, status)
    ensures Progress(spec, generation, items, i + 1, updateErrors, now, start, matched, updates, writes, failed, status)
  {
    AttemptsStep(items, i, spec);
  }

  lemma ProgressSent(spec: ClassificationRuleSpec, generation: int, items: seq<Candidate>, i: nat,
                     updateErrors: map<ObjectKey, string>, now: Time, start: ClassificationRuleStatus,
                     matched: Int32, updates: seq<Candidate>, writes: seq<ClassificationRuleStatus>,
                     failed: seq<string>, status: ClassificationRuleStatus, u: Candidate)
    requires i < |items| && Attempts(items[..i + 1], spec) == updates + [u]
    requires u.Key() !in updateErrors
    requires Progress(spec, generation, items, i, updateErrors, now, start, matched, updates, writes, failed, status)
    ensures Progress(spec, generation, items, i + 1, updateErrors, now, start,
                     Inc32(matched), updates + [u], writes, failed, status)
  {
    FailureStep(updates, u, updateErrors);
    assert failed == FailureErrors(updates + [u], updateErrors);
    var n: nat := |updates| - |failed|;
    assert |updates + [u]| - |failed| == n + 1;
    assert Count32(n + 1) == Inc32(Count32(n));
  }

  lemma ProgressFailed(spec: ClassificationRuleSpec, generation: int, items: seq<Candidate>, i: nat,
                       updateErrors: map<ObjectKey, string>, now: Time, start: ClassificationRuleStatus,
                       matched: Int32, updates: seq<Candidate>, writes: seq<ClassificationRuleStatus>,
                       failed: seq<string>, status: ClassificationRuleStatus, u: Candidate,
                       err: string, status': ClassificationRuleStatus)
    requires i < |items| && Attempts(items[..i + 1], spec) == updates + [u]
    requires u.Key() in updateErrors && err == updateErrors[u.Key()]
    requires status' == StatusAfterFailures(start, spec.targetKind, failed + [err], generation, now)
    requires Progress(spec, generation, items, i, updateErrors, now, start, matched, updates, writes, failed, status)
    ensures Progress(spec, generation, items, i + 1, updateErrors, now, start,
                     matched, updates + [u], writes + [status'], failed + [err], status')
  {
    FailureStep(updates, u, updateErrors);
    assert failed + [err] == FailureErrors(updates + [u], updateErrors);
    FailureWritesStep(start, spec.targetKind, failed, err, generation, now);
    assert |updates + [u]| - |failed + [err]| == |updates| - |failed|;
  }

  /** One turn of the loop: process the next listed object and write the status after a failed update. */
  method Advance(rule: ClassificationRule, items: seq<Candidate>, i: nat, updateErrors: map<ObjectKey, string>,
                 now: Time, ghost start: ClassificationRuleStatus,
                 matched: Int32, updates: seq<Candidate>, writes: seq<ClassificationRuleStatus>, ghost failed: seq<string>)
    returns (matched': Int32, updates': seq<Candidate>, writes': seq<ClassificationRuleStatus>, ghost failed': seq<string>)
    requires i < |items|
    requires Progress(rule.spec, rule.meta.generation, items, i, updateErrors, now, start,
                      matched, updates, writes, failed, rule.status)
    modifies rule
    ensures Progress(rule.spec, rule.meta.generation, items, i + 1, updateErrors, now, start,
                     matched', updates', writes', failed', rule.status)
  {
    ghost var status := rule.status;
    var update, err := ProcessCandidate(rule, items[i], updateErrors, now, start, failed);
    if update.None? {
      ProgressSkip(rule.spec, rule.meta.generation, items, i, updateErrors, now, start,
                   matched, updates, writes, failed, status);
      return matched, updates, writes, failed;
    }
    AttemptsStep(items, i, rule.spec);
    assert Attempts(items[..i + 1], rule.spec) == updates + [update.value];
    if err.None? {
      ProgressSent(rule.spec, rule.meta.generation, items, i, updateErrors, now, start,
                   matched, updates, writes, failed, status, update.value);
      return Inc32(matched), updates + [update.value], writes, failed;
    }
    ProgressFailed(rule.spec, rule.meta.generation, items, i, updateErrors, now, start,
                   matched, updates, writes, failed, status, update.value, err.value, rule.status);
    return matched, updates + [update.value], writes + [rule.status], failed + [err.value];
  }

  /**
   * The loop over the listed objects: label each matching object, send the
   * update when a label changed, and on a failed update record
   * Ready=False/UpdateFailed, write the status and go on with the next object.
   */
  method ProcessCandidates(rule: ClassificationRule, items: seq<Candidate>, updateErrors: map<ObjectKey, string>,
                           now: Time)
    returns (matched: Int32, updates: seq<Candidate>, writes: seq<ClassificationRuleStatus>, ghost failed: seq<string>)
    modifies rule
    ensures updates == Attempts(items, rule.spec)
    ensures failed == FailureErrors(updates, updateErrors)
    ensures matched == Count32(|updates| - |failed|)
    ensures writes == FailureWrites(old(rule.status), rule.spec.targetKind, failed, rule.meta.generation, now)
    ensures rule.status == StatusAfterFailures(old(rule.status), rule.spec.targetKind, failed, rule.meta.generation, now)
  {
    ghost var start := rule.status;
    matched, updates, writes, failed := 0, [], [], [];
    for i := 0 to |items|
      invariant Progress(rule.spec, rule.meta.generation, items, i, updateErrors, now, start,
                         matched, updates, writes, failed, rule.status)
    {
      matched, updates, writes, failed := Advance(rule, items, i, updateErrors, now, start,
                                                  matched, updates, writes, failed);
    }
    assert items[..|items|] == items;
  }

  /** The list options of the rule's kind; for Node rules a namespace criterion is reported as ignored. */
  method PrepareListing(rule: ClassificationRule, now: Time) returns (listOpts: seq<ListOption>)
    modifies rule
    ensures rule.status == BaseStatus(RuleObject(rule.meta, rule.spec, old(rule.status)), now)
    ensures listOpts == ListFilters(rule.spec)
  {
    var kind := rule.spec.targetKind;
    var mc := rule.spec.matchCriteria;
    listOpts := [];
    if kind == "Pod" {
      if mc.Some? && mc.value.commonMatch.Some? {
        listOpts := FilterPodList(listOpts, mc);
      }
    } else if kind == "Node" {
      if mc.Some? && mc.value.commonMatch.Some? && mc.value.commonMatch.value.namespace != "" {
        SetCondition(rule, "Degraded", ConditionTrue, "NamespaceIgnoredForNode",
                     "commonMatch.namespace is ignored for Node targetKind", now);
      }
      if mc.Some? && mc.value.nodeMatch.Some? {
        listOpts := FilterNodeList(listOpts, mc);
      }
    } else {
      if mc.Some? && mc.value.commonMatch.Some? {
        listOpts := FilterPodList(listOpts, mc);
      }
    }
  }

  /** Record the count and Ready=True/Applied, write the status and work out the requeue. */
  method FinishCycle(rule: ClassificationRule, request: ListRequest, matched: Int32, updates: seq<Candidate>,
                     writes: seq<ClassificationRuleStatus>, statusUpdateError: Option<string>,
                     parseDuration: string -> Option<Duration>, now: Time,
                     ghost base: ClassificationRuleStatus, ghost failed: seq<string>)
    returns (out: ReconcileOutcome)
    requires |failed| <= |updates|
    requires matched == Count32(|updates| - |failed|)
    requires writes == FailureWrites(base, rule.spec.targetKind, failed, rule.meta.generation, now)
    requires rule.status == StatusAfterFailures(base, rule.spec.targetKind, failed, rule.meta.generation, now)
    modifies rule
    ensures out == FinishSpec(rule.spec, rule.meta.generation, base, request, updates, failed,
                              statusUpdateError, parseDuration, now)
    ensures EndsWithWrite(out, rule.status)
  {
    var kind := rule.spec.targetKind;
    var writes' := writes;
    rule.status := rule.status.(matchedResourcesCount := matched, observedGeneration := rule.meta.generation);
    var applied := Applied(matched, rule.meta.generation, now);
    if failed != [] {
      UpsertOverwrites(base.conditions, UpdateFailed(kind, failed[|failed| - 1], rule.meta.generation, now), applied);
    }
    SetCondition(rule, "Ready", ConditionTrue, "Applied", "Applied labels to " + FormatInt(matched) + " resources", now);
    writes' := writes' + [rule.status];
    if statusUpdateError.Some? {
      return ReconcileOutcome(0, statusUpdateError, Some(request), updates, writes');
    }
    out := Requeue(rule, request, updates, writes', parseDuration, now);
  }

  /** The requeue decision after the final status write succeeded. */
  method Requeue(rule: ClassificationRule, request: ListRequest, updates: seq<Candidate>,
                 writes: seq<ClassificationRuleStatus>, parseDuration: string -> Option<Duration>, now: Time)
    returns (out: ReconcileOutcome)
    modifies rule
    ensures var interval := rule.spec.refreshInterval;
            out == if interval == "" then ReconcileOutcome(DefaultRequeue, None, Some(request), updates, writes)
                   else if parseDuration(interval).Some?
                   then ReconcileOutcome(parseDuration(interval).value, None, Some(request), updates, writes)
                   else ReconcileOutcome(0, None, Some(request), updates, writes + [WithCondition(old(rule.status),
                          StatusCondition("Degraded", ConditionTrue, "InvalidRefreshInterval",
                                          "RefreshInterval must be a valid duration (e.g. 30s, 5m)",
                                          rule.meta.generation, now))])
    ensures rule.status == if |out.statusWrites| > |writes| then out.statusWrites[|writes|] else old(rule.status)
  {
    var requeueAfter := DefaultRequeue;
    if rule.spec.refreshInterval != "" {
      var d := parseDuration(rule.spec.refreshInterval);
      if d.None? {
        SetCondition(rule, "Degraded", ConditionTrue, "InvalidRefreshInterval",
                     "RefreshInterval must be a valid duration (e.g. 30s, 5m)", now);
        return ReconcileOutcome(0, None, Some(request), updates, writes + [rule.status]);
      }
      requeueAfter := d.value;
    }
    return ReconcileOutcome(requeueAfter, None, Some(request), updates, writes);
  }

  /** The last status the outcome writes is `status`. */
  predicate EndsWithWrite(out: ReconcileOutcome, status: ClassificationRuleStatus)
  {
    |out.statusWrites| > 0 && out.statusWrites[|out.statusWrites| - 1] == status
  }

  /** A failed list writes Ready=False/ListFailed and ends the cycle with the list error. */
  method RecordListFailure(rule: ClassificationRule, request: ListRequest, err: string, now: Time)
    returns (out: ReconcileOutcome)
    modifies rule
    ensures out == ListFailedSpec(rule.spec.targetKind, old(rule.status), request, err, rule.meta.generation, now)
    ensures EndsWithWrite(out, rule.status)
  {
    SetCondition(rule, "Ready", ConditionFalse, "ListFailed",
                 "Failed to list " + Noun(rule.spec.targetKind) + "s: " + err, now);
    out := ReconcileOutcome(0, Some(err), Some(request), [], [rule.status]);
  }

  /** Everything from the kind switch on, for a supported kind. */
  method RunCycle(rule: ClassificationRule, cluster: Cluster, parseDuration: string -> Option<Duration>, now: Time)
    returns (out: ReconcileOutcome)
    requires Supported(rule.spec.targetKind)
    modifies rule
    ensures out == CycleSpec(RuleObject(rule.meta, rule.spec, old(rule.status)), cluster, parseDuration, now)
    ensures EndsWithWrite(out, rule.status)
  {
    ghost var obj := RuleObject(rule.meta, rule.spec, rule.status);
    var kind := rule.spec.targetKind;
    var listOpts := PrepareListing(rule, now);
    ghost var base := rule.status;
    assert base == BaseStatus(obj, now);
    var request := ListRequest(kind, listOpts);
    assert request == ListRequest(obj.spec.targetKind, ListFilters(obj.spec));
    CycleSpecCases(obj, cluster, parseDuration, now);
    if cluster.listError.Some? {
      out := RecordListFailure(rule, request, cluster.listError.value, now);
      return;
    }
    var items := ListObjects(cluster.objects, kind, listOpts);
    var matched, updates, writes, failed := ProcessCandidates(rule, items, cluster.updateErrors, now);
    assert updates == Selected(obj.spec, cluster.objects);
    out := FinishCycle(rule, request, matched, updates, writes, cluster.statusUpdateError, parseDuration, now,
                       base, failed);
    assert out == FinishSpec(obj.spec, obj.meta.generation, base, request, updates, failed,
                             cluster.statusUpdateError, parseDuration, now);
  }

  /**
   * Reconcile: a missing rule ends the cycle quietly, a failed fetch returns
   * its error, a suspended rule only records Suspended, an unknown kind only
   * records UnsupportedTarget; otherwise the cycle runs as CycleSpec says.
   */
  method Reconcile(fetch: FetchResult, cluster: Cluster, parseDuration: string -> Option<Duration>, now: Time)
    returns (out: ReconcileOutcome)
    ensures fetch.NotFound? ==> out == ReconcileOutcome(0, None, None, [], [])
    ensures fetch.FetchFailed? ==> out == ReconcileOutcome(0, Some(fetch.err), None, [], [])
    ensures fetch.Fetched? && fetch.rule.spec.suspend ==>
      out == ReconcileOutcome(0, None, None, [], [WithCondition(fetch.rule.status,
               StatusCondition("Suspended", ConditionTrue, "RuleSuspended", "Rule is suspended",
                               fetch.rule.meta.generation, now))])
    ensures fetch.Fetched? && !fetch.rule.spec.suspend && !Supported(fetch.rule.spec.targetKind) ==>
      out == ReconcileOutcome(0, None, None, [], [WithCondition(fetch.rule.status,
               StatusCondition("Ready", ConditionFalse, "UnsupportedTarget",
                               "TargetKind " + fetch.rule.spec.targetKind + " not yet implemented",
                               fetch.rule.meta.generation, now))])
    ensures fetch.Fetched? && !fetch.rule.spec.suspend && Supported(fetch.rule.spec.targetKind) ==>
      out == CycleSpec(fetch.rule, cluster, parseDuration, now)
  {
    match fetch
    case NotFound =>
      return ReconcileOutcome(0, None, None, [], []);
    case FetchFailed(err) =>
      return ReconcileOutcome(0, Some(err), None, [], []);
    case Fetched(obj) =>
      var rule := new ClassificationRule(obj);
      if rule.spec.suspend {
        SetCondition(rule, "Suspended", ConditionTrue, "RuleSuspended", "Rule is suspended", now);
        return ReconcileOutcome(0, None, None, [], [rule.status]);
      }
      if !Supported(rule.spec.targetKind) {
        SetCondition(rule, "Ready", ConditionFalse, "UnsupportedTarget",
                     "TargetKind " + rule.spec.targetKind + " not yet implemented", now);
        return ReconcileOutcome(0, None, None, [], [rule.status]);
      }
      out := RunCycle(rule, cluster, parseDuration, now);
  }

  // ----- what a cycle does -----

  lemma ListObjectsAppend(objects: seq<Candidate>, c: Candidate, kind: string, opts: seq<ListOption>)
    ensures ListObjects(objects + [c], kind, opts)
         == ListObjects(objects, kind, opts) + (if Listed(kind, opts, c) then [c] else [])
  {
    assert (objects + [c])[..|objects|] == objects;
  }

  lemma AttemptsAppend(items: seq<Candidate>, c: Candidate, spec: ClassificationRuleSpec)
    ensures Attempts(items + [c], spec)
         == Attempts(items, spec) + (if Eligible(spec, c) then [Labelled(spec, c)] else [])
  {
    assert (items + [c])[..|items|] == items;
  }

  /** A list returns exactly the stored objects of its kind that its options admit. */
  lemma {:induction false} ListObjectsMeaning(objects: seq<Candidate>, kind: string, opts: seq<ListOption>)
    ensures forall c :: c in ListObjects(objects, kind, opts) <==> c in objects && Listed(kind, opts, c)
    decreases |objects|
  {
    if objects != [] {
      var init, last := objects[..|objects| - 1], objects[|objects| - 1];
      ListObjectsMeaning(init, kind, opts);
      assert objects == init + [last];
    }
  }

  /** The cycle sends one update per listed object that matches and lacks a rule label, and no other. */
  lemma {:induction false} AttemptsMeaning(items: seq<Candidate>, spec: ClassificationRuleSpec)
    ensures forall u | u in Attempts(items, spec) :: exists c | c in items :: Eligible(spec, c) && u == Labelled(spec, c)
    ensures forall c | c in items && Eligible(spec, c) :: Labelled(spec, c) in Attempts(items, spec)
    decreases |items|
  {
    if items != [] {
      var init, last := items[..|items| - 1], items[|items| - 1];
      AttemptsMeaning(init, spec);
      assert items == init + [last];
    }
  }

  /**
   * The updates of a cycle: the merged labels of every stored object of the
   * rule's kind that the list options admit, that matches and that lacks one
   * of the rule's labels, and nothing else.
   */
  lemma SelectedMeaning(spec: ClassificationRuleSpec, objects: seq<Candidate>)
    ensures forall u | u in Selected(spec, objects) ::
              exists c | c in objects :: Listed(spec.targetKind, ListFilters(spec), c) && Eligible(spec, c)
                                         && u == Labelled(spec, c)
    ensures forall c | c in objects && Listed(spec.targetKind, ListFilters(spec), c) && Eligible(spec, c) ::
              Labelled(spec, c) in Selected(spec, objects)
  {
    var items := ListObjects(objects, spec.targetKind, ListFilters(spec));
    ListObjectsMeaning(objects, spec.targetKind, ListFilters(spec));
    AttemptsMeaning(items, spec);
  }

  /**
   * Pod rules: with no empty label value in the criteria, listing with the
   * pushed-down options and running the matching package's matcher selects
   * exactly the pods the helpers package's full matcher accepts.
   */
  lemma PodSelectionIsFullMatch(spec: ClassificationRuleSpec, c: Candidate)
    requires spec.targetKind == "Pod" && c.PodItem?
    requires NoEmptyValues(spec.matchCriteria)
    ensures Listed("Pod", ListFilters(spec), c) && Eligible(spec, c)
        <==> PodMatchFull.Accepts(spec.matchCriteria, c.pod) && LabelsDiffer(c.pod.meta.labels, spec.labels)
  {
    assert ListFilters(spec) == NamespacedFilters(spec.matchCriteria);
    PodPushdownEquivalent(spec.matchCriteria, c.pod);
  }

  /** Pod cycles update exactly the stored pods the full matcher accepts and the rule would change. */
  lemma PodSelected(spec: ClassificationRuleSpec, objects: seq<Candidate>)
    requires spec.targetKind == "Pod"
    requires NoEmptyValues(spec.matchCriteria)
    ensures forall u | u in Selected(spec, objects) ::
              exists c | c in objects :: c.PodItem? && PodMatchFull.Accepts(spec.matchCriteria, c.pod)
                                         && LabelsDiffer(c.pod.meta.labels, spec.labels) && u == Labelled(spec, c)
    ensures forall c | c in objects && c.PodItem? && PodMatchFull.Accepts(spec.matchCriteria, c.pod)
                       && LabelsDiffer(c.pod.meta.labels, spec.labels) ::
              Labelled(spec, c) in Selected(spec, objects)
  {
    SelectedMeaning(spec, objects);
    forall c | c in objects && Listed("Pod", ListFilters(spec), c)
      ensures c.PodItem?
    {
    }
    forall c | c in objects && c.PodItem?
      ensures Listed("Pod", ListFilters(spec), c) && Eligible(spec, c)
          <==> PodMatchFull.Accepts(spec.matchCriteria, c.pod) && LabelsDiffer(c.pod.meta.labels, spec.labels)
    {
      PodSelectionIsFullMatch(spec, c);
    }
  }

  /**
   * Node rules: with no empty value in the criteria, the node list options
   * never drop a node the node matcher accepts, so a cycle updates every
   * stored node that matches and lacks a rule label.
   */
  lemma NodeSelectedMissesNone(spec: ClassificationRuleSpec, objects: seq<Candidate>)
    requires spec.targetKind == "Node"
    requires NoEmptyValues(spec.matchCriteria)
    ensures forall c | c in objects && c.NodeItem? && Eligible(spec, c) :: Labelled(spec, c) in Selected(spec, objects)
  {
    SelectedMeaning(spec, objects);
    var mc := spec.matchCriteria;
    forall c | c in objects && c.NodeItem? && Eligible(spec, c)
      ensures Listed("Node", ListFilters(spec), c)
    {
      if mc.Some? && mc.value.nodeMatch.Some? {
        NodePushdownSound(mc, c.node);
      }
    }
  }

  /**
   * Deployment rules: with no empty label value, a cycle considers exactly
   * the deployments in the criteria's namespace that carry its labels.
   */
  lemma DeploymentSelectionInScope(spec: ClassificationRuleSpec, c: Candidate)
    requires spec.targetKind == "Deployment" && c.DeploymentItem?
    requires NoEmptyValues(spec.matchCriteria)
    ensures Listed("Deployment", ListFilters(spec), c) && Eligible(spec, c)
        <==> InScope(spec.matchCriteria, c.deployment.meta) && DeploymentMatch.Accepts(spec.matchCriteria, c.deployment)
             && LabelsDiffer(c.deployment.meta.labels, spec.labels)
  {
    assert ListFilters(spec) == NamespacedFilters(spec.matchCriteria);
    NamespacedFiltersMeaning(spec.matchCriteria, c.deployment.meta);
  }

  /**
   * A list call that fails ends the cycle: nothing is updated, the error is
   * returned, there is no requeue and the one status write reads
   * Ready=False/ListFailed with the error.
   */
  lemma ListFailureAborts(kind: string, base: ClassificationRuleStatus, request: ListRequest, err: string,
                          generation: int, now: Time)
    ensures var out := ListFailedSpec(kind, base, request, err, generation, now);
            && out.err == Some(err) && out.requeueAfter == 0 && out.updates == []
            && |out.statusWrites| == 1
            && ConditionOf(out.statusWrites[0].conditions, "Ready")
               == Some(StatusCondition("Ready", ConditionFalse, "ListFailed",
                                       "Failed to list " + Noun(kind) + "s: " + err, generation, now))
  {
    UpsertSets(base.conditions, StatusCondition("Ready", ConditionFalse, "ListFailed",
                                                "Failed to list " + Noun(kind) + "s: " + err, generation, now));
  }

  /** Each write after a failed update reads Ready=False/UpdateFailed with that update's error. */
  lemma FailureWritesReport(base: ClassificationRuleStatus, kind: string, failed: seq<string>, generation: int, now: Time)
    ensures forall i | 0 <= i < |failed| ::
              ConditionOf(FailureWrites(base, kind, failed, generation, now)[i].conditions, "Ready")
              == Some(UpdateFailed(kind, failed[i], generation, now))
  {
    forall i | 0 <= i < |failed|
      ensures ConditionOf(FailureWrites(base, kind, failed, generation, now)[i].conditions, "Ready")
           == Some(UpdateFailed(kind, failed[i], generation, now))
    {
      UpsertSets(base.conditions, UpdateFailed(kind, failed[i], generation, now));
    }
  }

  /** The final write records the count and the generation, and Ready reads True/Applied. */
  lemma FinalStatusReport(base: ClassificationRuleStatus, count: Int32, generation: int, now: Time)
    ensures FinalStatus(base, count, generation, now).matchedResourcesCount == count
    ensures FinalStatus(base, count, generation, now).observedGeneration == generation
    ensures ConditionOf(FinalStatus(base, count, generation, now).conditions, "Ready") == Some(Applied(count, generation, now))
  {
    UpsertSets(base.conditions, Applied(count, generation, now));
  }

  /**
   * A cycle whose list call succeeds writes, after each failed update, the
   * status FailureWrites gives (Ready=False/UpdateFailed with its error, by
   * FailureWritesReport), and then the count of successful updates with
   * Ready=True/Applied, the generation observed. Below 2^31 updates the
   * count is exact.
   */
  lemma FinishWritesPrefix(spec: ClassificationRuleSpec, generation: int, base: ClassificationRuleStatus,
                           request: ListRequest, updates: seq<Candidate>, failed: seq<string>,
                           statusUpdateError: Option<string>, parseDuration: string -> Option<Duration>, now: Time)
    requires |failed| <= |updates|
    ensures var out := FinishSpec(spec, generation, base, request, updates, failed, statusUpdateError, parseDuration, now);
            && out.updates == updates
            && |out.statusWrites| > |failed|
            && out.statusWrites[..|failed| + 1]
               == FailureWrites(base, spec.targetKind, failed, generation, now)
                  + [FinalStatus(base, Count32(|updates| - |failed|), generation, now)]
  {
    var writes := FailureWrites(base, spec.targetKind, failed, generation, now)
                  + [FinalStatus(base, Count32(|updates| - |failed|), generation, now)];
    var out := FinishSpec(spec, generation, base, request, updates, failed, statusUpdateError, parseDuration, now);
    if statusUpdateError.None? && spec.refreshInterval != "" && parseDuration(spec.refreshInterval).None? {
      var extra := out.statusWrites[|writes|];
      assert out.statusWrites == writes + [extra];
      assert (writes + [extra])[..|writes|] == writes;
    } else {
      assert out.statusWrites == writes;
    }
  }

  lemma FinishReportsApplied(spec: ClassificationRuleSpec, generation: int, base: ClassificationRuleStatus,
                             request: ListRequest, updates: seq<Candidate>, failed: seq<string>,
                             statusUpdateError: Option<string>, parseDuration: string -> Option<Duration>, now: Time)
    requires |failed| <= |updates|
    ensures var out := FinishSpec(spec, generation, base, request, updates, failed, statusUpdateError, parseDuration, now);
            var count := Count32(|updates| - |failed|);
            && out.updates == updates
            && |out.statusWrites| > |failed|
            && out.statusWrites[..|failed|] == FailureWrites(base, spec.targetKind, failed, generation, now)
            && out.statusWrites[|failed|].matchedResourcesCount == count
            && out.statusWrites[|failed|].observedGeneration == generation
            && ConditionOf(out.statusWrites[|failed|].conditions, "Ready") == Some(Applied(count, generation, now))
            && (|updates| < 0x8000_0000 ==> count == |updates| - |failed|)
  {
    var out := FinishSpec(spec, generation, base, request, updates, failed, statusUpdateError, parseDuration, now);
    var count := Count32(|updates| - |failed|);
    var writes := FailureWrites(base, spec.targetKind, failed, generation, now);
    var final := FinalStatus(base, count, generation, now);
    FinishWritesPrefix(spec, generation, base, request, updates, failed, statusUpdateError, parseDuration, now);
    var prefix := out.statusWrites[..|failed| + 1];
    assert prefix == writes + [final];
    assert out.statusWrites[..|failed|] == writes by {
      assert out.statusWrites[..|failed|] == prefix[..|failed|];
    }
    assert out.statusWrites[|failed|] == final by {
      assert out.statusWrites[|failed|] == prefix[|failed|];
    }
    FinalStatusReport(base, count, generation, now);
    if |updates| < 0x8000_0000 {
      Count32Exact(|updates| - |failed|);
    }
  }

  /**
   * Requeue: an empty refreshInterval requeues after 30s, one that parses
   * after that duration; one that does not parse is reported
   * Degraded/InvalidRefreshInterval, leaves Ready=True/Applied in place and
   * stops the requeue; a failed final status write returns its error instead.
   */
  lemma FinishRequeue(spec: ClassificationRuleSpec, generation: int, base: ClassificationRuleStatus,
                      request: ListRequest, updates: seq<Candidate>, failed: seq<string>,
                      statusUpdateError: Option<string>, parseDuration: string -> Option<Duration>, now: Time)
    requires |failed| <= |updates|
    ensures var out := FinishSpec(spec, generation, base, request, updates, failed, statusUpdateError, parseDuration, now);
            var interval := spec.refreshInterval;
            var count := Count32(|updates| - |failed|);
            && out.err == statusUpdateError
            && out.requeueAfter == (if statusUpdateError.Some? then 0
                                    else if interval == "" then DefaultRequeue
                                    else if parseDuration(interval).Some? then parseDuration(interval).value
                                    else 0)
            && (statusUpdateError.None? && interval != "" && parseDuration(interval).None? ==>
                  |out.statusWrites| == |failed| + 2
                  && ConditionOf(out.statusWrites[|failed| + 1].conditions, "Degraded")
                     == Some(StatusCondition("Degraded", ConditionTrue, "InvalidRefreshInterval",
                                             "RefreshInterval must be a valid duration (e.g. 30s, 5m)", generation, now))
                  && ConditionOf(out.statusWrites[|failed| + 1].conditions, "Ready") == Some(Applied(count, generation, now)))
  {
    var count := Count32(|updates| - |failed|);
    var final := FinalStatus(base, count, generation, now);
    var degraded := StatusCondition("Degraded", ConditionTrue, "InvalidRefreshInterval",
                                    "RefreshInterval must be a valid duration (e.g. 30s, 5m)", generation, now);
    UpsertSets(base.conditions, Applied(count, generation, now));
    UpsertSets(final.conditions, degraded);
    UpsertLeavesOtherTypes(final.conditions, degraded, "Ready");
  }

  /**
   * The stored objects after a cycle whose every update succeeded: each
   * object the cycle updated now carries the merged labels.
   */
  ghost function Relabelled(objects: seq<Candidate>, spec: ClassificationRuleSpec, opts: seq<ListOption>)
    : (r: seq<Candidate>)
    ensures |r| == |objects|
    decreases |objects|
  {
    if objects == [] then []
    else
      var last := objects[|objects| - 1];
      Relabelled(objects[..|objects| - 1], spec, opts)
      + [if Listed(spec.targetKind, opts, last) && Eligible(spec, last) then Labelled(spec, last) else last]
  }

  lemma {:induction false} RelabelledQuiet(objects: seq<Candidate>, spec: ClassificationRuleSpec, opts: seq<ListOption>)
    ensures Attempts(ListObjects(Relabelled(objects, spec, opts), spec.targetKind, opts), spec) == []
    decreases |objects|
  {
    if objects != [] {
      var init, last := objects[..|objects| - 1], objects[|objects| - 1];
      RelabelledQuiet(init, spec, opts);
      var x := if Listed(spec.targetKind, opts, last) && Eligible(spec, last) then Labelled(spec, last) else last;
      var before := Relabelled(init, spec, opts);
      assert Relabelled(objects, spec, opts) == before + [x];
      ListObjectsAppend(before, x, spec.targetKind, opts);
      if !Listed(spec.targetKind, opts, x) {
        assert ListObjects(Relabelled(objects, spec, opts), spec.targetKind, opts)
            == ListObjects(before, spec.targetKind, opts);
      } else {
        if x == Labelled(spec, last) {
          MergeIdempotent(last.Meta().labels, spec.labels);
        }
        assert !Eligible(spec, x);
        AttemptsAppend(ListObjects(before, spec.targetKind, opts), x, spec);
      }
    }
  }

  /**
   * Labelling is idempotent: once a cycle's updates have all gone through,
   * the next cycle over the same store selects nothing.
   */
  lemma SecondCycleQuiet(spec: ClassificationRuleSpec, objects: seq<Candidate>)
    ensures Selected(spec, Relabelled(objects, spec, ListFilters(spec))) == []
  {
    RelabelledQuiet(objects, spec, ListFilters(spec));
  }
}
