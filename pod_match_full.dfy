/**
 * MatchesPodDetailed and MatchesPod of the helpers package: the pod matcher
 * that checks every common criterion itself (namespace and labels included)
 * before the same pod section as the matching package's matcher.
 */
module PodMatchFull {
  import opened Wrappers
  import opened LabelMaps
  import opened Api
  import opened Resources
  import opened Checks
  import PodMatch

  /** Namespace, then name. */
  function ScopeSpec(cm: CommonMatchCriteria, meta: ObjectMeta): Outcome
  {
    Then(ExactCheck(cm.namespace, meta.namespace, "commonMatch.namespace"),
         ExactCheck(cm.name, meta.name, "commonMatch.name"))
  }

  /** Namespace and name, then labels, then annotations. */
  function CommonSpec(cm: CommonMatchCriteria, meta: ObjectMeta, labelOrder: seq<string>, annotationOrder: seq<string>)
    : Outcome
    requires Enumerates(labelOrder, cm.labels) && Enumerates(annotationOrder, cm.annotations)
  {
    Then(ScopeSpec(cm, meta),
    Then(EntriesCheck(cm.labels, meta.labels, labelOrder, "commonMatch.labels"),
         EntriesCheck(cm.annotations, meta.annotations, annotationOrder, "commonMatch.annotations")))
  }

  function MatchSpec(mc: Option<MatchCriteria>, pod: Pod, order: KeyOrder): Outcome
    requires OrderFits(order, mc)
  {
    if mc.None? then Skipped
    else
      Then(if mc.value.commonMatch.Some?
           then CommonSpec(mc.value.commonMatch.value, pod.meta, order.labels, order.annotations) else Skipped,
           if mc.value.podMatch.Some? then PodMatch.SectionSpec(mc.value.podMatch.value, pod, order.nodeSelector)
           else Skipped)
  }

  ghost predicate CommonAccepts(cm: CommonMatchCriteria, meta: ObjectMeta)
  {
    && (cm.namespace == "" || meta.namespace == cm.namespace)
    && (cm.name == "" || meta.name == cm.name)
    && AllEntriesMatch(cm.labels, meta.labels)
    && AllEntriesMatch(cm.annotations, meta.annotations)
  }

  ghost predicate Accepts(mc: Option<MatchCriteria>, pod: Pod)
  {
    mc.None? ||
    ((mc.value.commonMatch.None? || CommonAccepts(mc.value.commonMatch.value, pod.meta))
     && (mc.value.podMatch.None? || PodMatch.SectionAccepts(mc.value.podMatch.value, pod)))
  }

  function CommonLength(cm: CommonMatchCriteria): nat
  {
    Specified(cm.namespace) + Specified(cm.name) + |cm.labels| + |cm.annotations|
  }

  function SuccessLength(mc: Option<MatchCriteria>): nat
  {
    if mc.None? then 0
    else
      (if mc.value.commonMatch.Some? then CommonLength(mc.value.commonMatch.value) else 0)
      + (if mc.value.podMatch.Some? then PodMatch.SectionLength(mc.value.podMatch.value) else 0)
  }

  lemma CommonSpecMeaning(cm: CommonMatchCriteria, meta: ObjectMeta, labelOrder: seq<string>, annotationOrder: seq<string>)
    requires Enumerates(labelOrder, cm.labels) && Enumerates(annotationOrder, cm.annotations)
    ensures CommonSpec(cm, meta, labelOrder, annotationOrder).ok <==> CommonAccepts(cm, meta)
    ensures CommonSpec(cm, meta, labelOrder, annotationOrder).ok
        ==> |CommonSpec(cm, meta, labelOrder, annotationOrder).fields| == CommonLength(cm)
    ensures !CommonSpec(cm, meta, labelOrder, annotationOrder).ok
        ==> |CommonSpec(cm, meta, labelOrder, annotationOrder).fields| < CommonLength(cm)
  {
    var namespace := ExactCheck(cm.namespace, meta.namespace, "commonMatch.namespace");
    var name := ExactCheck(cm.name, meta.name, "commonMatch.name");
    var labels := EntriesCheck(cm.labels, meta.labels, labelOrder, "commonMatch.labels");
    var annotations := EntriesCheck(cm.annotations, meta.annotations, annotationOrder, "commonMatch.annotations");
    ExactCheckMeaning(cm.namespace, meta.namespace, "commonMatch.namespace");
    ExactCheckMeaning(cm.name, meta.name, "commonMatch.name");
    EntriesCheckComplete(cm.labels, meta.labels, labelOrder, "commonMatch.labels");
    EntriesCheckComplete(cm.annotations, meta.annotations, annotationOrder, "commonMatch.annotations");
    ThenLength(labels, annotations, |cm.labels|, |cm.annotations|);
    ThenLength(namespace, name, Specified(cm.namespace), Specified(cm.name));
    ThenLength(Then(namespace, name), Then(labels, annotations), Specified(cm.namespace) + Specified(cm.name),
               |cm.labels| + |cm.annotations|);
  }

  /**
   * The full pod matcher accepts exactly the pods Accepts describes, in any
   * visiting order; a pass records SuccessLength(mc) entries, a failure fewer.
   */
  lemma MatchSpecMeaning(mc: Option<MatchCriteria>, pod: Pod, order: KeyOrder)
    requires OrderFits(order, mc)
    ensures MatchSpec(mc, pod, order).ok <==> Accepts(mc, pod)
    ensures MatchSpec(mc, pod, order).ok ==> |MatchSpec(mc, pod, order).fields| == SuccessLength(mc)
    ensures !MatchSpec(mc, pod, order).ok ==> |MatchSpec(mc, pod, order).fields| < SuccessLength(mc)
  {
    if mc.Some? {
      var c := mc.value;
      var common := if c.commonMatch.Some? then CommonSpec(c.commonMatch.value, pod.meta, order.labels, order.annotations)
                    else Skipped;
      var section := if c.podMatch.Some? then PodMatch.SectionSpec(c.podMatch.value, pod, order.nodeSelector)
                     else Skipped;
      if c.commonMatch.Some? {
        CommonSpecMeaning(c.commonMatch.value, pod.meta, order.labels, order.annotations);
      }
      if c.podMatch.Some? {
        PodMatch.SectionSpecMeaning(c.podMatch.value, pod, order.nodeSelector);
      }
      ThenLength(common, section, if c.commonMatch.Some? then CommonLength(c.commonMatch.value) else 0,
                 if c.podMatch.Some? then PodMatch.SectionLength(c.podMatch.value) else 0);
    }
  }

  /**
   * When the pod lies in the criteria's namespace and carries every criteria
   * label, the full matcher and the matching package's matcher agree.
   */
  lemma AgreesWithPushedMatcher(mc: Option<MatchCriteria>, pod: Pod)
    requires mc.Some? && mc.value.commonMatch.Some? ==>
      && (mc.value.commonMatch.value.namespace == "" || pod.meta.namespace == mc.value.commonMatch.value.namespace)
      && AllEntriesMatch(mc.value.commonMatch.value.labels, pod.meta.labels)
    ensures Accepts(mc, pod) <==> PodMatch.Accepts(mc, pod)
  {
  }

  /** A pod in another namespace is rejected by this matcher however the rest matches. */
  lemma OtherNamespaceRejected(mc: Option<MatchCriteria>, pod: Pod)
    requires mc.Some? && mc.value.commonMatch.Some?
    requires mc.value.commonMatch.value.namespace != "" && pod.meta.namespace != mc.value.commonMatch.value.namespace
    ensures !Accepts(mc, pod)
  {
  }

  /** The label entries, then the annotation entries. */
  method CheckMetadata(cm: CommonMatchCriteria, meta: ObjectMeta)
    returns (r: Outcome, ghost labelOrder: seq<string>, ghost annotationOrder: seq<string>)
    ensures Enumerates(labelOrder, cm.labels) && Enumerates(annotationOrder, cm.annotations)
    ensures r == Then(EntriesCheck(cm.labels, meta.labels, labelOrder, "commonMatch.labels"),
                      EntriesCheck(cm.annotations, meta.annotations, annotationOrder, "commonMatch.annotations"))
  {
    var labels;
    labels, labelOrder := CheckEntries(cm.labels, meta.labels, "commonMatch.labels");
    annotationOrder := SomeListing(cm.annotations.Keys);
    if !labels.ok {
      return labels, labelOrder, annotationOrder;
    }
    var annotations;
    annotations, annotationOrder := CheckEntries(cm.annotations, meta.annotations, "commonMatch.annotations");
    return Outcome(annotations.ok, labels.fields + annotations.fields), labelOrder, annotationOrder;
  }

  method CheckCommon(cm: CommonMatchCriteria, meta: ObjectMeta)
    returns (r: Outcome, ghost labelOrder: seq<string>, ghost annotationOrder: seq<string>)
    ensures Enumerates(labelOrder, cm.labels) && Enumerates(annotationOrder, cm.annotations)
    ensures r == CommonSpec(cm, meta, labelOrder, annotationOrder)
  {
    labelOrder := SomeListing(cm.labels.Keys);
    annotationOrder := SomeListing(cm.annotations.Keys);
    var fields: seq<string> := [];
    if cm.namespace != "" {
      if meta.namespace != cm.namespace {
        return Failed, labelOrder, annotationOrder;
      }
      fields := fields + ["commonMatch.namespace"];
    }
    if cm.name != "" {
      if meta.name != cm.name {
        return Outcome(false, fields), labelOrder, annotationOrder;
      }
      fields := fields + ["commonMatch.name"];
    }
    assert ScopeSpec(cm, meta) == Outcome(true, fields);
    var metadata;
    metadata, labelOrder, annotationOrder := CheckMetadata(cm, meta);
    return Outcome(metadata.ok, fields + metadata.fields), labelOrder, annotationOrder;
  }

  /** MatchesPodDetailed (helpers package): whether the pod matches and the trail of matched fields. */
  method MatchesPodDetailed(mc: Option<MatchCriteria>, pod: Pod)
    returns (ok: bool, matchedFields: seq<string>, ghost order: KeyOrder)
    ensures OrderFits(order, mc)
    ensures Outcome(ok, matchedFields) == MatchSpec(mc, pod, order)
    ensures ok <==> Accepts(mc, pod)
    ensures mc.None? ==> ok && matchedFields == []
  {
    order := AnyOrder(mc);
    matchedFields := [];
    if mc.None? {
      return true, matchedFields, order;
    }
    if mc.value.commonMatch.Some? {
      var common, labelOrder, annotationOrder := CheckCommon(mc.value.commonMatch.value, pod.meta);
      order := order.(labels := labelOrder, annotations := annotationOrder);
      matchedFields := matchedFields + common.fields;
      if !common.ok {
        MatchSpecMeaning(mc, pod, order);
        return false, matchedFields, order;
      }
    }
    ghost var common := if mc.value.commonMatch.Some?
                        then CommonSpec(mc.value.commonMatch.value, pod.meta, order.labels, order.annotations) else Skipped;
    assert common == Outcome(true, matchedFields);
    if mc.value.podMatch.Some? {
      var section, selectorOrder := PodMatch.CheckSection(mc.value.podMatch.value, pod);
      order := order.(nodeSelector := selectorOrder);
      assert MatchSpec(mc, pod, order) == Then(common, section);
      matchedFields := matchedFields + section.fields;
      if !section.ok {
        MatchSpecMeaning(mc, pod, order);
        return false, matchedFields, order;
      }
    }
    MatchSpecMeaning(mc, pod, order);
    return true, matchedFields, order;
  }

  /** MatchesPod: the boolean part of MatchesPodDetailed. */
  method MatchesPod(mc: Option<MatchCriteria>, pod: Pod) returns (ok: bool)
    ensures ok <==> Accepts(mc, pod)
  {
    var fields;
    ghost var order;
    ok, fields, order := MatchesPodDetailed(mc, pod);
  }
}
