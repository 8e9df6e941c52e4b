/**
 * MatchesPodDetailed of the matching package: the pod matcher the controller
 * runs after listing. Namespace and common labels are left to the listing
 * filters and never read here; the pod section (host network, service account,
 * node selector, restart policy, images) is shared with the full matcher.
 */
module PodMatch {
  import opened Wrappers
  import opened LabelMaps
  import opened Api
  import opened Resources
  import opened Checks

  // ----- the pod section -----

  function HostNetworkCheck(want: Option<bool>, have: bool): Outcome
  {
    if want.None? then Skipped else if have != want.value then Failed else Passed("podMatch.hostNetwork")
  }

  function ImageSet(containers: seq<Container>): set<string>
  {
    set i | 0 <= i < |containers| :: containers[i].image
  }

  /** The first listed image present among the containers, or "" when none is (`matchedAny`). */
  function FirstHit(wants: seq<string>, images: set<string>): string
    decreases |wants|
  {
    if wants == [] then "" else if wants[0] in images then wants[0] else FirstHit(wants[1..], images)
  }

  /** The images check: it passes iff the first hit is non-empty, and records that hit. */
  function ImagesCheck(wants: seq<string>, containers: seq<Container>): Outcome
  {
    if |wants| == 0 then Skipped
    else
      var hit := FirstHit(wants, ImageSet(containers));
      if hit == "" then Failed else Passed("podMatch.images:" + hit)
  }

  /** Restart policy, then images: the last two pod checks. */
  function TailSpec(pm: PodMatchCriteria, pod: Pod): Outcome
  {
    Then(ExactCheck(pm.restartPolicy, pod.spec.restartPolicy, "podMatch.restartPolicy"),
         ImagesCheck(pm.images, pod.spec.containers))
  }

  /** Host network, then service account: the first two pod checks. */
  function HeadSpec(pm: PodMatchCriteria, pod: Pod): Outcome
  {
    Then(HostNetworkCheck(pm.hostNetwork, pod.spec.hostNetwork),
         ExactCheck(pm.serviceAccount, pod.spec.serviceAccountName, "podMatch.serviceAccount"))
  }

  function SectionSpec(pm: PodMatchCriteria, pod: Pod, selectorOrder: seq<string>): Outcome
    requires Enumerates(selectorOrder, pm.nodeSelector)
  {
    Then(HeadSpec(pm, pod),
    Then(EntriesCheck(pm.nodeSelector, pod.spec.nodeSelector, selectorOrder, "podMatch.nodeSelector"),
         TailSpec(pm, pod)))
  }

  /** The listed image at index `i` is the first one present, and it is not "". */
  ghost predicate DecisiveHit(wants: seq<string>, images: set<string>, i: int)
  {
    && 0 <= i < |wants|
    && wants[i] in images
    && wants[i] != ""
    && forall j :: 0 <= j < i ==> wants[j] !in images
  }

  ghost predicate ImagesAccepted(wants: seq<string>, containers: seq<Container>)
  {
    |wants| == 0 || exists i :: DecisiveHit(wants, ImageSet(containers), i)
  }

  ghost predicate TailAccepts(pm: PodMatchCriteria, pod: Pod)
  {
    (pm.restartPolicy == "" || pod.spec.restartPolicy == pm.restartPolicy)
    && ImagesAccepted(pm.images, pod.spec.containers)
  }

  ghost predicate SectionAccepts(pm: PodMatchCriteria, pod: Pod)
  {
    && (pm.hostNetwork.None? || pod.spec.hostNetwork == pm.hostNetwork.value)
    && (pm.serviceAccount == "" || pod.spec.serviceAccountName == pm.serviceAccount)
    && AllEntriesMatch(pm.nodeSelector, pod.spec.nodeSelector)
    && TailAccepts(pm, pod)
  }

  function TailLength(pm: PodMatchCriteria): nat
  {
    Specified(pm.restartPolicy) + Listed(pm.images)
  }

  function HeadLength(pm: PodMatchCriteria): nat
  {
    (if pm.hostNetwork.Some? then 1 else 0) + Specified(pm.serviceAccount)
  }

  function SectionLength(pm: PodMatchCriteria): nat
  {
    HeadLength(pm) + |pm.nodeSelector| + TailLength(pm)
  }

  /**
   * First-hit semantics: the first listed image present is the hit, and the
   * check passes iff that hit is not "".
   */
  lemma {:induction false} FirstHitMeaning(wants: seq<string>, images: set<string>)
    ensures FirstHit(wants, images) == "" || FirstHit(wants, images) in images
    ensures FirstHit(wants, images) != "" <==> exists i :: DecisiveHit(wants, images, i)
    decreases |wants|
  {
    if wants != [] && wants[0] !in images {
      FirstHitMeaning(wants[1..], images);
      if FirstHit(wants[1..], images) != "" {
        var i :| DecisiveHit(wants[1..], images, i);
        assert DecisiveHit(wants, images, i + 1);
      }
      if i :| DecisiveHit(wants, images, i) {
        assert DecisiveHit(wants[1..], images, i - 1);
      }
    } else if wants != [] && wants[0] != "" {
      assert DecisiveHit(wants, images, 0);
    }
  }

  /** A first hit equal to "" fails the images check even when a later listed image is present. */
  lemma EmptyFirstHitFails(wants: seq<string>, containers: seq<Container>)
    requires |wants| > 0 && wants[0] == ""
    requires "" in ImageSet(containers)
    ensures !ImagesCheck(wants, containers).ok
  {
  }

  lemma ImagesCheckMeaning(wants: seq<string>, containers: seq<Container>)
    ensures ImagesCheck(wants, containers).ok <==> ImagesAccepted(wants, containers)
    ensures |ImagesCheck(wants, containers).fields| == if ImagesCheck(wants, containers).ok then Listed(wants) else 0
  {
    FirstHitMeaning(wants, ImageSet(containers));
  }

  lemma TailSpecMeaning(pm: PodMatchCriteria, pod: Pod)
    ensures TailSpec(pm, pod).ok <==> TailAccepts(pm, pod)
    ensures TailSpec(pm, pod).ok ==> |TailSpec(pm, pod).fields| == TailLength(pm)
    ensures !TailSpec(pm, pod).ok ==> |TailSpec(pm, pod).fields| < TailLength(pm)
  {
    ExactCheckMeaning(pm.restartPolicy, pod.spec.restartPolicy, "podMatch.restartPolicy");
    ImagesCheckMeaning(pm.images, pod.spec.containers);
    ThenLength(ExactCheck(pm.restartPolicy, pod.spec.restartPolicy, "podMatch.restartPolicy"),
               ImagesCheck(pm.images, pod.spec.containers), Specified(pm.restartPolicy), Listed(pm.images));
  }

  lemma HeadSpecMeaning(pm: PodMatchCriteria, pod: Pod)
    ensures HeadSpec(pm, pod).ok <==> (pm.hostNetwork.None? || pod.spec.hostNetwork == pm.hostNetwork.value)
                                      && (pm.serviceAccount == "" || pod.spec.serviceAccountName == pm.serviceAccount)
    ensures HeadSpec(pm, pod).ok ==> |HeadSpec(pm, pod).fields| == HeadLength(pm)
    ensures !HeadSpec(pm, pod).ok ==> |HeadSpec(pm, pod).fields| < HeadLength(pm)
  {
    var host := HostNetworkCheck(pm.hostNetwork, pod.spec.hostNetwork);
    var account := ExactCheck(pm.serviceAccount, pod.spec.serviceAccountName, "podMatch.serviceAccount");
    ExactCheckMeaning(pm.serviceAccount, pod.spec.serviceAccountName, "podMatch.serviceAccount");
    ThenLength(host, account, if pm.hostNetwork.Some? then 1 else 0, Specified(pm.serviceAccount));
  }

  lemma SectionSpecMeaning(pm: PodMatchCriteria, pod: Pod, selectorOrder: seq<string>)
    requires Enumerates(selectorOrder, pm.nodeSelector)
    ensures SectionSpec(pm, pod, selectorOrder).ok <==> SectionAccepts(pm, pod)
    ensures SectionSpec(pm, pod, selectorOrder).ok ==> |SectionSpec(pm, pod, selectorOrder).fields| == SectionLength(pm)
    ensures !SectionSpec(pm, pod, selectorOrder).ok ==> |SectionSpec(pm, pod, selectorOrder).fields| < SectionLength(pm)
  {
    var selector := EntriesCheck(pm.nodeSelector, pod.spec.nodeSelector, selectorOrder, "podMatch.nodeSelector");
    var tail := TailSpec(pm, pod);
    HeadSpecMeaning(pm, pod);
    EntriesCheckComplete(pm.nodeSelector, pod.spec.nodeSelector, selectorOrder, "podMatch.nodeSelector");
    TailSpecMeaning(pm, pod);
    ThenLength(selector, tail, |pm.nodeSelector|, TailLength(pm));
    ThenLength(HeadSpec(pm, pod), Then(selector, tail), HeadLength(pm), |pm.nodeSelector| + TailLength(pm));
  }

  method CollectImages(containers: seq<Container>) returns (images: set<string>)
    ensures images == ImageSet(containers)
  {
    images := {};
    for i := 0 to |containers|
      invariant images == ImageSet(containers[..i])
    {
      assert ImageSet(containers[..i + 1]) == ImageSet(containers[..i]) + {containers[i].image} by {
        assert forall j :: 0 <= j < i ==> containers[..i + 1][j] == containers[..i][j];
      }
      images := images + {containers[i].image};
    }
    assert containers[..|containers|] == containers;
  }

  method CheckImages(wants: seq<string>, containers: seq<Container>) returns (r: Outcome)
    ensures r == ImagesCheck(wants, containers)
  {
    if |wants| == 0 {
      return Skipped;
    }
    var images := CollectImages(containers);
    var matchedAny := "";
    var i := 0;
    while i < |wants|
      invariant 0 <= i <= |wants|
      invariant FirstHit(wants, images) == FirstHit(wants[i..], images)
      invariant matchedAny == ""
    {
      if wants[i] in images {
        matchedAny := wants[i];
        break;
      }
      assert wants[i..][1..] == wants[i + 1..];
      i := i + 1;
    }
    if matchedAny == "" {
      return Failed;
    }
    return Passed("podMatch.images:" + matchedAny);
  }

  method CheckTail(pm: PodMatchCriteria, pod: Pod) returns (r: Outcome)
    ensures r == TailSpec(pm, pod)
  {
    var fields: seq<string> := [];
    if pm.restartPolicy != "" {
      if pod.spec.restartPolicy != pm.restartPolicy {
        return Failed;
      }
      fields := fields + ["podMatch.restartPolicy"];
    }
    var images := CheckImages(pm.images, pod.spec.containers);
    return Outcome(images.ok, fields + images.fields);
  }

  method CheckHead(pm: PodMatchCriteria, pod: Pod) returns (r: Outcome)
    ensures r == HeadSpec(pm, pod)
  {
    var fields: seq<string> := [];
    if pm.hostNetwork.Some? {
      if pod.spec.hostNetwork != pm.hostNetwork.value {
        return Failed;
      }
      fields := fields + ["podMatch.hostNetwork"];
    }
    if pm.serviceAccount != "" {
      if pod.spec.serviceAccountName != pm.serviceAccount {
        return Outcome(false, fields);
      }
      fields := fields + ["podMatch.serviceAccount"];
    }
    return Outcome(true, fields);
  }

  /** The pod-specific checks, as both pod matchers run them. */
  method CheckSection(pm: PodMatchCriteria, pod: Pod) returns (r: Outcome, ghost selectorOrder: seq<string>)
    ensures Enumerates(selectorOrder, pm.nodeSelector)
    ensures r == SectionSpec(pm, pod, selectorOrder)
  {
    selectorOrder := SomeListing(pm.nodeSelector.Keys);
    var head := CheckHead(pm, pod);
    if !head.ok {
      return head, selectorOrder;
    }
    var fields := head.fields;
    var selector;
    selector, selectorOrder := CheckEntries(pm.nodeSelector, pod.spec.nodeSelector, "podMatch.nodeSelector");
    fields := fields + selector.fields;
    if !selector.ok {
      return Outcome(false, fields), selectorOrder;
    }
    var tail := CheckTail(pm, pod);
    fields := fields + tail.fields;
    return Outcome(tail.ok, fields), selectorOrder;
  }

  // ----- the matcher that relies on the listing filters -----

  /** Name and annotations only: namespace and labels were pushed down to the listing. */
  function CommonSpec(cm: CommonMatchCriteria, meta: ObjectMeta, annotationOrder: seq<string>): Outcome
    requires Enumerates(annotationOrder, cm.annotations)
  {
    Then(ExactCheck(cm.name, meta.name, "commonMatch.name"),
         EntriesCheck(cm.annotations, meta.annotations, annotationOrder, "commonMatch.annotations"))
  }

  function MatchSpec(mc: Option<MatchCriteria>, pod: Pod, order: KeyOrder): Outcome
    requires OrderFits(order, mc)
  {
    if mc.None? then Skipped
    else
      Then(if mc.value.commonMatch.Some? then CommonSpec(mc.value.commonMatch.value, pod.meta, order.annotations)
           else Skipped,
           if mc.value.podMatch.Some? then SectionSpec(mc.value.podMatch.value, pod, order.nodeSelector) else Skipped)
  }

  ghost predicate CommonAccepts(cm: CommonMatchCriteria, meta: ObjectMeta)
  {
    (cm.name == "" || meta.name == cm.name) && AllEntriesMatch(cm.annotations, meta.annotations)
  }

  ghost predicate Accepts(mc: Option<MatchCriteria>, pod: Pod)
  {
    mc.None? ||
    ((mc.value.commonMatch.None? || CommonAccepts(mc.value.commonMatch.value, pod.meta))
     && (mc.value.podMatch.None? || SectionAccepts(mc.value.podMatch.value, pod)))
  }

  function CommonLength(cm: CommonMatchCriteria): nat
  {
    Specified(cm.name) + |cm.annotations|
  }

  /** The name-and-annotations checks pass exactly when CommonAccepts holds. */
  lemma CommonSpecMeaning(cm: CommonMatchCriteria, meta: ObjectMeta, annotationOrder: seq<string>)
    requires Enumerates(annotationOrder, cm.annotations)
    ensures CommonSpec(cm, meta, annotationOrder).ok <==> CommonAccepts(cm, meta)
    ensures CommonSpec(cm, meta, annotationOrder).ok ==> |CommonSpec(cm, meta, annotationOrder).fields| == CommonLength(cm)
    ensures !CommonSpec(cm, meta, annotationOrder).ok ==> |CommonSpec(cm, meta, annotationOrder).fields| < CommonLength(cm)
  {
    ExactCheckMeaning(cm.name, meta.name, "commonMatch.name");
    EntriesCheckComplete(cm.annotations, meta.annotations, annotationOrder, "commonMatch.annotations");
    ThenLength(ExactCheck(cm.name, meta.name, "commonMatch.name"),
               EntriesCheck(cm.annotations, meta.annotations, annotationOrder, "commonMatch.annotations"),
               Specified(cm.name), |cm.annotations|);
  }

  function SuccessLength(mc: Option<MatchCriteria>): nat
  {
    if mc.None? then 0
    else
      (if mc.value.commonMatch.Some? then CommonLength(mc.value.commonMatch.value) else 0)
      + (if mc.value.podMatch.Some? then SectionLength(mc.value.podMatch.value) else 0)
  }

  /**
   * The matcher accepts exactly the pods Accepts describes, in any visiting
   * order; a pass records SuccessLength(mc) entries, a failure fewer.
   */
  lemma MatchSpecMeaning(mc: Option<MatchCriteria>, pod: Pod, order: KeyOrder)
    requires OrderFits(order, mc)
    ensures MatchSpec(mc, pod, order).ok <==> Accepts(mc, pod)
    ensures MatchSpec(mc, pod, order).ok ==> |MatchSpec(mc, pod, order).fields| == SuccessLength(mc)
    ensures !MatchSpec(mc, pod, order).ok ==> |MatchSpec(mc, pod, order).fields| < SuccessLength(mc)
  {
    if mc.Some? {
      var c := mc.value;
      var common := if c.commonMatch.Some? then CommonSpec(c.commonMatch.value, pod.meta, order.annotations) else Skipped;
      var section := if c.podMatch.Some? then SectionSpec(c.podMatch.value, pod, order.nodeSelector) else Skipped;
      var commonLength := if c.commonMatch.Some? then CommonLength(c.commonMatch.value) else 0;
      if c.commonMatch.Some? {
        CommonSpecMeaning(c.commonMatch.value, pod.meta, order.annotations);
      }
      if c.podMatch.Some? {
        SectionSpecMeaning(c.podMatch.value, pod, order.nodeSelector);
      }
      ThenLength(common, section, commonLength,
                 if c.podMatch.Some? then SectionLength(c.podMatch.value) else 0);
    }
  }

  /** The pod's namespace and labels never influence this matcher, trail included. */
  lemma NamespaceAndLabelsIgnored(mc: Option<MatchCriteria>, pod: Pod, order: KeyOrder,
                                  namespace: string, labels: map<string, string>)
    requires OrderFits(order, mc)
    ensures MatchSpec(mc, pod.(meta := pod.meta.(namespace := namespace, labels := labels)), order)
         == MatchSpec(mc, pod, order)
  {
  }

  method CheckCommon(cm: CommonMatchCriteria, meta: ObjectMeta) returns (r: Outcome, ghost annotationOrder: seq<string>)
    ensures Enumerates(annotationOrder, cm.annotations)
    ensures r == CommonSpec(cm, meta, annotationOrder)
  {
    annotationOrder := SomeListing(cm.annotations.Keys);
    var fields: seq<string> := [];
    if cm.name != "" {
      if meta.name != cm.name {
        return Failed, annotationOrder;
      }
      fields := fields + ["commonMatch.name"];
    }
    var annotations;
    annotations, annotationOrder := CheckEntries(cm.annotations, meta.annotations, "commonMatch.annotations");
    fields := fields + annotations.fields;
    return Outcome(annotations.ok, fields), annotationOrder;
  }

  /** MatchesPodDetailed (matching package): whether the pod matches and the trail of matched fields. */
  method MatchesPodDetailed(mc: Option<MatchCriteria>, pod: Pod)
    returns (ok: bool, matchedFields: seq<string>, ghost order: KeyOrder)
    ensures OrderFits(order, mc)
    ensures Outcome(ok, matchedFields) == MatchSpec(mc, pod, order)
    ensures ok <==> Accepts(mc, pod)
    ensures mc.None? ==> ok && matchedFields == []
  {
    order := AnyOrder(mc);
    matchedFields := [];
    if mc.None? {
      return true, matchedFields, order;
    }
    if mc.value.commonMatch.Some? {
      var common, annotationOrder := CheckCommon(mc.value.commonMatch.value, pod.meta);
      order := order.(annotations := annotationOrder);
      matchedFields := matchedFields + common.fields;
      if !common.ok {
        MatchSpecMeaning(mc, pod, order);
        return false, matchedFields, order;
      }
    }
    ghost var common := if mc.value.commonMatch.Some?
                        then CommonSpec(mc.value.commonMatch.value, pod.meta, order.annotations) else Skipped;
    assert common == Outcome(true, matchedFields);
    if mc.value.podMatch.Some? {
      var section, selectorOrder := CheckSection(mc.value.podMatch.value, pod);
      order := order.(nodeSelector := selectorOrder);
      assert MatchSpec(mc, pod, order) == Then(common, section);
      matchedFields := matchedFields + section.fields;
      if !section.ok {
        MatchSpecMeaning(mc, pod, order);
        return false, matchedFields, order;
      }
    }
    MatchSpecMeaning(mc, pod, order);
    return true, matchedFields, order;
  }
}
