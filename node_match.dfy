/**
 * MatchesNodeDetailed / MatchesNode: the in-memory node matcher. Common criteria
 * (name, labels, annotations; never the namespace) and then the node section
 * (architecture and OS membership, taint subset, kernel and runtime substring),
 * stopping at the first failing check.
 */
module NodeMatch {
  import opened Wrappers
  import opened LabelMaps
  import opened Text
  import opened Api
  import opened Resources
  import opened Checks

  const ArchLabel := "kubernetes.io/arch"
  const OSLabel := "kubernetes.io/os"

  /** A taint rendered as `key=value:effect`, the form taint criteria are written in. */
  function TaintString(t: Taint): string
  {
    t.key + "=" + t.value + ":" + t.effect
  }

  function TaintSet(taints: seq<Taint>): set<string>
  {
    set i | 0 <= i < |taints| :: TaintString(taints[i])
  }

  // ----- specification -----

  /** The label and annotation checks of the common criteria. */
  function MetadataSpec(cm: CommonMatchCriteria, meta: ObjectMeta,
                        labelOrder: seq<string>, annotationOrder: seq<string>): Outcome
    requires Enumerates(labelOrder, cm.labels) && Enumerates(annotationOrder, cm.annotations)
  {
    Then(EntriesCheck(cm.labels, meta.labels, labelOrder, "commonMatch.labels"),
         EntriesCheck(cm.annotations, meta.annotations, annotationOrder, "commonMatch.annotations"))
  }

  function CommonSpec(cm: CommonMatchCriteria, meta: ObjectMeta,
                      labelOrder: seq<string>, annotationOrder: seq<string>): Outcome
    requires Enumerates(labelOrder, cm.labels) && Enumerates(annotationOrder, cm.annotations)
  {
    Then(ExactCheck(cm.name, meta.name, "commonMatch.name"), MetadataSpec(cm, meta, labelOrder, annotationOrder))
  }

  /** The taint, kernel and container runtime checks of a node section. */
  function HostSpec(nm: NodeMatchCriteria, node: Node): Outcome
  {
    Then(SubsetCheck(nm.taints, TaintSet(node.taints), "nodeMatch.taints"),
    Then(ContainsCheck(nm.kernelVersion, node.nodeInfo.kernelVersion, "nodeMatch.kernelVersion"),
         ContainsCheck(nm.containerRuntime, node.nodeInfo.containerRuntimeVersion, "nodeMatch.containerRuntime")))
  }

  function SectionSpec(nm: NodeMatchCriteria, node: Node): Outcome
  {
    Then(MembershipCheck(nm.archLabels, Lookup(node.meta.labels, ArchLabel), "nodeMatch.archLabels"),
    Then(MembershipCheck(nm.osLabels, Lookup(node.meta.labels, OSLabel), "nodeMatch.osLabels"),
         HostSpec(nm, node)))
  }

  /** The outcome MatchesNodeDetailed returns when the criteria maps are visited in `order`. */
  function MatchSpec(mc: Option<MatchCriteria>, node: Node, order: KeyOrder): Outcome
    requires OrderFits(order, mc)
  {
    if mc.None? then Skipped
    else
      Then(if mc.value.commonMatch.Some?
           then CommonSpec(mc.value.commonMatch.value, node.meta, order.labels, order.annotations)
           else Skipped,
           if mc.value.nodeMatch.Some? then SectionSpec(mc.value.nodeMatch.value, node) else Skipped)
  }

  /** What the node criteria demand, independent of any visiting order. */
  ghost predicate CommonAccepts(cm: CommonMatchCriteria, meta: ObjectMeta)
  {
    && (cm.name == "" || meta.name == cm.name)
    && AllEntriesMatch(cm.labels, meta.labels)
    && AllEntriesMatch(cm.annotations, meta.annotations)
  }

  ghost predicate SectionAccepts(nm: NodeMatchCriteria, node: Node)
  {
    && (|nm.archLabels| == 0 || Lookup(node.meta.labels, ArchLabel) in nm.archLabels)
    && (|nm.osLabels| == 0 || Lookup(node.meta.labels, OSLabel) in nm.osLabels)
    && (forall t | t in nm.taints :: t in TaintSet(node.taints))
    && (nm.kernelVersion == "" || Contains(node.nodeInfo.kernelVersion, nm.kernelVersion))
    && (nm.containerRuntime == "" || Contains(node.nodeInfo.containerRuntimeVersion, nm.containerRuntime))
  }

  ghost predicate Accepts(mc: Option<MatchCriteria>, node: Node)
  {
    mc.None? ||
    ((mc.value.commonMatch.None? || CommonAccepts(mc.value.commonMatch.value, node.meta))
     && (mc.value.nodeMatch.None? || SectionAccepts(mc.value.nodeMatch.value, node)))
  }

  /** Trail entries a full pass records: one per specified scalar, one per map key or taint. */
  function CommonLength(cm: CommonMatchCriteria): nat
  {
    Specified(cm.name) + |cm.labels| + |cm.annotations|
  }

  function SectionLength(nm: NodeMatchCriteria): nat
  {
    Listed(nm.archLabels) + Listed(nm.osLabels) + |nm.taints|
    + Specified(nm.kernelVersion) + Specified(nm.containerRuntime)
  }

  function SuccessLength(mc: Option<MatchCriteria>): nat
  {
    if mc.None? then 0
    else
      (if mc.value.commonMatch.Some? then CommonLength(mc.value.commonMatch.value) else 0)
      + (if mc.value.nodeMatch.Some? then SectionLength(mc.value.nodeMatch.value) else 0)
  }

  lemma CommonSpecMeaning(cm: CommonMatchCriteria, meta: ObjectMeta,
                          labelOrder: seq<string>, annotationOrder: seq<string>)
    requires Enumerates(labelOrder, cm.labels) && Enumerates(annotationOrder, cm.annotations)
    ensures CommonSpec(cm, meta, labelOrder, annotationOrder).ok <==> CommonAccepts(cm, meta)
    ensures CommonSpec(cm, meta, labelOrder, annotationOrder).ok
            ==> |CommonSpec(cm, meta, labelOrder, annotationOrder).fields| == CommonLength(cm)
    ensures !CommonSpec(cm, meta, labelOrder, annotationOrder).ok
            ==> |CommonSpec(cm, meta, labelOrder, annotationOrder).fields| < CommonLength(cm)
  {
    var name := ExactCheck(cm.name, meta.name, "commonMatch.name");
    var labels := EntriesCheck(cm.labels, meta.labels, labelOrder, "commonMatch.labels");
    var annotations := EntriesCheck(cm.annotations, meta.annotations, annotationOrder, "commonMatch.annotations");
    ExactCheckMeaning(cm.name, meta.name, "commonMatch.name");
    EntriesCheckComplete(cm.labels, meta.labels, labelOrder, "commonMatch.labels");
    EntriesCheckComplete(cm.annotations, meta.annotations, annotationOrder, "commonMatch.annotations");
    ThenLength(labels, annotations, |cm.labels|, |cm.annotations|);
    ThenLength(name, Then(labels, annotations), Specified(cm.name), |cm.labels| + |cm.annotations|);
  }

  lemma SectionSpecMeaning(nm: NodeMatchCriteria, node: Node)
    ensures SectionSpec(nm, node).ok <==> SectionAccepts(nm, node)
    ensures SectionSpec(nm, node).ok ==> |SectionSpec(nm, node).fields| == SectionLength(nm)
    ensures !SectionSpec(nm, node).ok ==> |SectionSpec(nm, node).fields| < SectionLength(nm)
  {
    var arch := MembershipCheck(nm.archLabels, Lookup(node.meta.labels, ArchLabel), "nodeMatch.archLabels");
    var os := MembershipCheck(nm.osLabels, Lookup(node.meta.labels, OSLabel), "nodeMatch.osLabels");
    var taints := SubsetCheck(nm.taints, TaintSet(node.taints), "nodeMatch.taints");
    var kernel := ContainsCheck(nm.kernelVersion, node.nodeInfo.kernelVersion, "nodeMatch.kernelVersion");
    var runtime := ContainsCheck(nm.containerRuntime, node.nodeInfo.containerRuntimeVersion, "nodeMatch.containerRuntime");
    MembershipCheckMeaning(nm.archLabels, Lookup(node.meta.labels, ArchLabel), "nodeMatch.archLabels");
    MembershipCheckMeaning(nm.osLabels, Lookup(node.meta.labels, OSLabel), "nodeMatch.osLabels");
    SubsetCheckMeaning(nm.taints, TaintSet(node.taints), "nodeMatch.taints");
    ContainsCheckMeaning(nm.kernelVersion, node.nodeInfo.kernelVersion, "nodeMatch.kernelVersion");
    ContainsCheckMeaning(nm.containerRuntime, node.nodeInfo.containerRuntimeVersion, "nodeMatch.containerRuntime");
    ThenLength(kernel, runtime, Specified(nm.kernelVersion), Specified(nm.containerRuntime));
    ThenLength(taints, Then(kernel, runtime), |nm.taints|,
               Specified(nm.kernelVersion) + Specified(nm.containerRuntime));
    ThenLength(os, Then(taints, Then(kernel, runtime)), Listed(nm.osLabels),
               |nm.taints| + Specified(nm.kernelVersion) + Specified(nm.containerRuntime));
    ThenLength(arch, Then(os, Then(taints, Then(kernel, runtime))), Listed(nm.archLabels),
               Listed(nm.osLabels) + |nm.taints| + Specified(nm.kernelVersion) + Specified(nm.containerRuntime));
  }

  /**
   * The node matcher accepts exactly the nodes Accepts describes, whatever order
   * the criteria maps are visited in; a pass records SuccessLength(mc) entries
   * and a failure strictly fewer (only the checks passed before it).
   */
  lemma MatchSpecMeaning(mc: Option<MatchCriteria>, node: Node, order: KeyOrder)
    requires OrderFits(order, mc)
    ensures MatchSpec(mc, node, order).ok <==> Accepts(mc, node)
    ensures MatchSpec(mc, node, order).ok ==> |MatchSpec(mc, node, order).fields| == SuccessLength(mc)
    ensures !MatchSpec(mc, node, order).ok ==> |MatchSpec(mc, node, order).fields| < SuccessLength(mc)
  {
    if mc.Some? {
      var c := mc.value;
      var common := if c.commonMatch.Some? then CommonSpec(c.commonMatch.value, node.meta, order.labels, order.annotations)
                    else Skipped;
      var section := if c.nodeMatch.Some? then SectionSpec(c.nodeMatch.value, node) else Skipped;
      if c.commonMatch.Some? {
        CommonSpecMeaning(c.commonMatch.value, node.meta, order.labels, order.annotations);
      }
      if c.nodeMatch.Some? {
        SectionSpecMeaning(c.nodeMatch.value, node);
      }
      ThenLength(common, section,
                 if c.commonMatch.Some? then CommonLength(c.commonMatch.value) else 0,
                 if c.nodeMatch.Some? then SectionLength(c.nodeMatch.value) else 0);
    }
  }

  /** On a pass with architecture criteria, the first trail entry of the section names the node's own architecture. */
  lemma ArchTrailNamesNodeValue(nm: NodeMatchCriteria, node: Node)
    requires |nm.archLabels| > 0 && SectionSpec(nm, node).ok
    ensures Lookup(node.meta.labels, ArchLabel) in nm.archLabels
    ensures SectionSpec(nm, node).fields[0] == "nodeMatch.archLabels:" + Lookup(node.meta.labels, ArchLabel)
  {
  }

  /** Taints are AND/subset semantics: giving a node more taints never turns a match into a non-match. */
  lemma MoreTaintsStillMatch(mc: Option<MatchCriteria>, node: Node, more: seq<Taint>)
    requires Accepts(mc, node)
    requires TaintSet(node.taints) <= TaintSet(more)
    ensures Accepts(mc, node.(taints := more))
  {
  }

  // ----- implementation -----

  method CheckMetadata(cm: CommonMatchCriteria, meta: ObjectMeta)
    returns (r: Outcome, ghost labelOrder: seq<string>, ghost annotationOrder: seq<string>)
    ensures Enumerates(labelOrder, cm.labels) && Enumerates(annotationOrder, cm.annotations)
    ensures r == MetadataSpec(cm, meta, labelOrder, annotationOrder)
  {
    annotationOrder := SomeListing(cm.annotations.Keys);
    var labels;
    labels, labelOrder := CheckEntries(cm.labels, meta.labels, "commonMatch.labels");
    if !labels.ok {
      return labels, labelOrder, annotationOrder;
    }
    var annotations;
    annotations, annotationOrder := CheckEntries(cm.annotations, meta.annotations, "commonMatch.annotations");
    return Outcome(annotations.ok, labels.fields + annotations.fields), labelOrder, annotationOrder;
  }

  method CheckCommon(cm: CommonMatchCriteria, meta: ObjectMeta)
    returns (r: Outcome, ghost labelOrder: seq<string>, ghost annotationOrder: seq<string>)
    ensures Enumerates(labelOrder, cm.labels) && Enumerates(annotationOrder, cm.annotations)
    ensures r == CommonSpec(cm, meta, labelOrder, annotationOrder)
  {
    ghost var name := ExactCheck(cm.name, meta.name, "commonMatch.name");
    var fields: seq<string> := [];
    if cm.name != "" {
      if meta.name != cm.name {
        assert !name.ok;
        labelOrder := SomeListing(cm.labels.Keys);
        annotationOrder := SomeListing(cm.annotations.Keys);
        return Failed, labelOrder, annotationOrder;
      }
      fields := fields + ["commonMatch.name"];
    }
    assert name == Outcome(true, fields);
    var rest;
    rest, labelOrder, annotationOrder := CheckMetadata(cm, meta);
    return Outcome(rest.ok, fields + rest.fields), labelOrder, annotationOrder;
  }

  method CollectTaints(taints: seq<Taint>) returns (existing: set<string>)
    ensures existing == TaintSet(taints)
  {
    existing := {};
    for i := 0 to |taints|
      invariant existing == TaintSet(taints[..i])
    {
      assert TaintSet(taints[..i + 1]) == TaintSet(taints[..i]) + {TaintString(taints[i])} by {
        assert forall j :: 0 <= j < i ==> taints[..i + 1][j] == taints[..i][j];
      }
      existing := existing + {TaintString(taints[i])};
    }
    assert taints[..|taints|] == taints;
  }

  /** The taint loop, entered only when taint criteria are given. */
  method CheckTaints(wants: seq<string>, taints: seq<Taint>) returns (r: Outcome)
    ensures r == SubsetCheck(wants, TaintSet(taints), "nodeMatch.taints")
  {
    if |wants| > 0 {
      var existing := CollectTaints(taints);
      r := CheckSubset(wants, existing, "nodeMatch.taints");
    } else {
      r := Skipped;
    }
  }

  method CheckHost(nm: NodeMatchCriteria, node: Node) returns (r: Outcome)
    ensures r == HostSpec(nm, node)
  {
    ghost var kernelSpec := ContainsCheck(nm.kernelVersion, node.nodeInfo.kernelVersion, "nodeMatch.kernelVersion");
    ghost var runtimeSpec :=
      ContainsCheck(nm.containerRuntime, node.nodeInfo.containerRuntimeVersion, "nodeMatch.containerRuntime");
    var taints := CheckTaints(nm.taints, node.taints);
    var fields := taints.fields;
    if !taints.ok {
      return Outcome(false, fields);
    }
    assert HostSpec(nm, node) == Then(Outcome(true, fields), Then(kernelSpec, runtimeSpec));
    if nm.kernelVersion != "" {
      if !Contains(node.nodeInfo.kernelVersion, nm.kernelVersion) {
        return Outcome(false, fields);
      }
      fields := fields + ["nodeMatch.kernelVersion"];
    }
    assert HostSpec(nm, node) == Then(Outcome(true, fields), runtimeSpec);
    if nm.containerRuntime != "" {
      if !Contains(node.nodeInfo.containerRuntimeVersion, nm.containerRuntime) {
        return Outcome(false, fields);
      }
      fields := fields + ["nodeMatch.containerRuntime"];
    }
    return Outcome(true, fields);
  }

  method CheckSection(nm: NodeMatchCriteria, node: Node) returns (r: Outcome)
    ensures r == SectionSpec(nm, node)
  {
    var fields: seq<string> := [];
    var arch := CheckMembership(nm.archLabels, Lookup(node.meta.labels, ArchLabel), "nodeMatch.archLabels");
    fields := fields + arch.fields;
    if !arch.ok {
      return Outcome(false, fields);
    }
    var os := CheckMembership(nm.osLabels, Lookup(node.meta.labels, OSLabel), "nodeMatch.osLabels");
    fields := fields + os.fields;
    if !os.ok {
      return Outcome(false, fields);
    }
    assert SectionSpec(nm, node) == Then(Outcome(true, fields), HostSpec(nm, node));
    var host := CheckHost(nm, node);
    return Outcome(host.ok, fields + host.fields);
  }

  /**
   * MatchesNodeDetailed: whether the node matches and the trail of matched
   * fields; `order` is the visiting order the runtime chose for the maps.
   */
  method MatchesNodeDetailed(mc: Option<MatchCriteria>, node: Node)
    returns (ok: bool, matchedFields: seq<string>, ghost order: KeyOrder)
    ensures OrderFits(order, mc)
    ensures Outcome(ok, matchedFields) == MatchSpec(mc, node, order)
    ensures ok <==> Accepts(mc, node)
    ensures mc.None? ==> ok && matchedFields == []
  {
    order := AnyOrder(mc);
    if mc.None? {
      return true, [], order;
    }
    var common := Skipped;
    if mc.value.commonMatch.Some? {
      ghost var labelOrder, annotationOrder;
      common, labelOrder, annotationOrder := CheckCommon(mc.value.commonMatch.value, node.meta);
      order := order.(labels := labelOrder, annotations := annotationOrder);
    }
    MatchSpecMeaning(mc, node, order);
    if !common.ok {
      return false, common.fields, order;
    }
    var section := Skipped;
    if mc.value.nodeMatch.Some? {
      section := CheckSection(mc.value.nodeMatch.value, node);
    }
    return section.ok, common.fields + section.fields, order;
  }

  /** MatchesNode: the boolean part of MatchesNodeDetailed. */
  method MatchesNode(mc: Option<MatchCriteria>, node: Node) returns (ok: bool)
    ensures ok <==> Accepts(mc, node)
  {
    var fields;
    ghost var order;
    ok, fields, order := MatchesNodeDetailed(mc, node);
  }
}
