/**
 * FilterPodList, FilterNodeList and FilterDeploymentList: the listing options
 * built from a rule's criteria so that the lister returns fewer objects, and
 * what such options admit. The lister applies the options in order: a
 * namespace option scopes the list, an equality selector is added to the
 * label selector built so far, and a set-based selector replaces it.
 */
module Pushdown {
  import opened Wrappers
  import opened LabelMaps
  import opened Api
  import opened Resources
  import opened Checks
  import NodeMatch
  import PodMatch
  import PodMatchFull

  /** A set-based selector term `key in (values)`. */
  datatype Requirement = InRequirement(key: string, values: seq<string>)

  datatype ListOption =
    | InNamespace(namespace: string)
    | MatchingLabels(selector: map<string, string>)
    | MatchingLabelsSelector(requirements: seq<Requirement>)

  /** A selector term needs the label to be present and its value to be listed. */
  predicate RequirementAdmits(r: Requirement, labels: map<string, string>)
  {
    r.key in labels && labels[r.key] in r.values
  }

  predicate OptionAdmits(o: ListOption, meta: ObjectMeta)
  {
    match o
    case InNamespace(ns) => meta.namespace == ns
    case MatchingLabels(selector) => forall k | k in selector :: k in meta.labels && meta.labels[k] == selector[k]
    case MatchingLabelsSelector(reqs) => forall i | 0 <= i < |reqs| :: RequirementAdmits(reqs[i], meta.labels)
  }

  predicate AdmitsAll(opts: seq<ListOption>, meta: ObjectMeta)
  {
    forall i | 0 <= i < |opts| :: OptionAdmits(opts[i], meta)
  }

  lemma AdmitsAllAppend(a: seq<ListOption>, b: seq<ListOption>, meta: ObjectMeta)
    ensures AdmitsAll(a + b, meta) <==> AdmitsAll(a, meta) && AdmitsAll(b, meta)
  {
    if AdmitsAll(a, meta) && AdmitsAll(b, meta) {
      forall i | 0 <= i < |a + b|
        ensures OptionAdmits((a + b)[i], meta)
      {
        if i >= |a| {
          assert (a + b)[i] == b[i - |a|];
        }
      }
    }
    if AdmitsAll(a + b, meta) {
      forall i | 0 <= i < |a|
        ensures OptionAdmits(a[i], meta)
      {
        assert (a + b)[i] == a[i];
      }
      forall i | 0 <= i < |b|
        ensures OptionAdmits(b[i], meta)
      {
        assert (a + b)[|a| + i] == b[i];
      }
    }
  }

  /**
   * The namespace a list is scoped to: the last namespace option sets it, and
   * without one the list is not scoped.
   */
  predicate NamespaceAdmits(opts: seq<ListOption>, meta: ObjectMeta)
    decreases |opts|
  {
    if opts == [] then true
    else if opts[|opts| - 1].InNamespace? then meta.namespace == opts[|opts| - 1].namespace
    else NamespaceAdmits(opts[..|opts| - 1], meta)
  }

  /**
   * The label selector a list sends, built option by option: MatchingLabels
   * adds its equalities to the selector built so far, while
   * MatchingLabelsSelector replaces that selector with its own terms.
   */
  predicate SelectorAdmits(opts: seq<ListOption>, meta: ObjectMeta)
    decreases |opts|
  {
    if opts == [] then true
    else
      var last := opts[|opts| - 1];
      match last
      case InNamespace(_) => SelectorAdmits(opts[..|opts| - 1], meta)
      case MatchingLabels(_) => SelectorAdmits(opts[..|opts| - 1], meta) && OptionAdmits(last, meta)
      case MatchingLabelsSelector(_) => OptionAdmits(last, meta)
  }

  /** Whether a list call with `opts` returns an object with metadata `meta`. */
  predicate ListAdmits(opts: seq<ListOption>, meta: ObjectMeta)
  {
    NamespaceAdmits(opts, meta) && SelectorAdmits(opts, meta)
  }

  /** A list never drops an object that every one of its options admits. */
  lemma {:induction false} AdmitsAllListed(opts: seq<ListOption>, meta: ObjectMeta)
    requires AdmitsAll(opts, meta)
    ensures ListAdmits(opts, meta)
  {
    if opts != [] {
      var init := opts[..|opts| - 1];
      assert AdmitsAll(init, meta) by {
        forall i | 0 <= i < |init|
          ensures OptionAdmits(init[i], meta)
        {
          assert init[i] == opts[i];
        }
      }
      AdmitsAllListed(init, meta);
      assert OptionAdmits(opts[|opts| - 1], meta);
    }
  }

  // ----- label-selector validation (labels.NewRequirement) -----

  predicate IsAlphanumeric(c: char)
  {
    'a' <= c <= 'z' || 'A' <= c <= 'Z' || '0' <= c <= '9'
  }

  /**
   * A valid label value: at most 63 characters, empty or alphanumeric at both
   * ends with only alphanumerics, '-', '_' and '.' between.
   */
  predicate ValidLabelValue(v: string)
  {
    && |v| <= 63
    && (v == "" || (IsAlphanumeric(v[0]) && IsAlphanumeric(v[|v| - 1])))
    && forall i | 0 <= i < |v| :: IsAlphanumeric(v[i]) || v[i] == '-' || v[i] == '_' || v[i] == '.'
  }

  /** NewRequirement(key, In, values) for the two fixed well-known keys: an error unless every value is valid. */
  function InRequirementFor(key: string, values: seq<string>): (r: Option<Requirement>)
    ensures r.Some? <==> |values| > 0 && forall i | 0 <= i < |values| :: ValidLabelValue(values[i])
    ensures r.Some? ==> r.value == InRequirement(key, values)
  {
    if |values| > 0 && forall i | 0 <= i < |values| :: ValidLabelValue(values[i])
    then Some(InRequirement(key, values)) else None
  }

  // ----- the options each builder appends -----

  /** Pods and Deployments: the namespace, then the common labels as an equality selector. */
  function NamespacedFilters(mc: Option<MatchCriteria>): seq<ListOption>
  {
    if mc.None? || mc.value.commonMatch.None? then []
    else
      var cm := mc.value.commonMatch.value;
      (if cm.namespace != "" then [InNamespace(cm.namespace)] else [])
      + (if |cm.labels| > 0 then [MatchingLabels(cm.labels)] else [])
  }

  /** The set-based terms for architecture and OS lists of more than one value that validate. */
  function NodeSelectorTerms(nm: NodeMatchCriteria): seq<Requirement>
  {
    var arch := InRequirementFor(NodeMatch.ArchLabel, nm.archLabels);
    var os := InRequirementFor(NodeMatch.OSLabel, nm.osLabels);
    (if |nm.archLabels| > 1 && arch.Some? then [arch.value] else [])
    + (if |nm.osLabels| > 1 && os.Some? then [os.value] else [])
  }

  function NodeSectionFilters(nm: NodeMatchCriteria): seq<ListOption>
  {
    (if |nm.archLabels| == 1 then [MatchingLabels(map[NodeMatch.ArchLabel := nm.archLabels[0]])] else [])
    + (if |nm.osLabels| == 1 then [MatchingLabels(map[NodeMatch.OSLabel := nm.osLabels[0]])] else [])
    + (if |NodeSelectorTerms(nm)| > 0 then [MatchingLabelsSelector(NodeSelectorTerms(nm))] else [])
  }

  /** Nodes: the common labels, then the architecture and OS selectors; never a namespace. */
  function NodeFilters(mc: Option<MatchCriteria>): seq<ListOption>
  {
    if mc.None? then []
    else
      (if mc.value.commonMatch.Some? && |mc.value.commonMatch.value.labels| > 0
       then [MatchingLabels(mc.value.commonMatch.value.labels)] else [])
      + (if mc.value.nodeMatch.Some? then NodeSectionFilters(mc.value.nodeMatch.value) else [])
  }

  // ----- the builders -----

  method FilterPodList(listOpts: seq<ListOption>, mc: Option<MatchCriteria>) returns (opts: seq<ListOption>)
    ensures opts == listOpts + NamespacedFilters(mc)
  {
    opts := listOpts;
    if mc.None? {
      return;
    }
    if mc.value.commonMatch.Some? {
      var cm := mc.value.commonMatch.value;
      if cm.namespace != "" {
        opts := opts + [InNamespace(cm.namespace)];
      }
      if |cm.labels| > 0 {
        opts := opts + [MatchingLabels(cm.labels)];
      }
    }
  }

  method FilterDeploymentList(listOpts: seq<ListOption>, mc: Option<MatchCriteria>) returns (opts: seq<ListOption>)
    ensures opts == listOpts + NamespacedFilters(mc)
  {
    opts := listOpts;
    if mc.None? {
      return;
    }
    if mc.value.commonMatch.Some? {
      var cm := mc.value.commonMatch.value;
      if cm.namespace != "" {
        opts := opts + [InNamespace(cm.namespace)];
      }
      if |cm.labels| > 0 {
        opts := opts + [MatchingLabels(cm.labels)];
      }
    }
  }

  /** The set-based selector terms, added only when labels.NewRequirement accepts them. */
  method BuildNodeSelector(nm: NodeMatchCriteria) returns (selector: seq<Requirement>, added: bool)
    ensures selector == NodeSelectorTerms(nm)
    ensures added <==> |selector| > 0
  {
    selector := [];
    added := false;
    if |nm.archLabels| > 1 {
      var req := InRequirementFor(NodeMatch.ArchLabel, nm.archLabels);
      if req.Some? {
        selector := selector + [req.value];
        added := true;
      }
    }
    if |nm.osLabels| > 1 {
      var req := InRequirementFor(NodeMatch.OSLabel, nm.osLabels);
      if req.Some? {
        selector := selector + [req.value];
        added := true;
      }
    }
  }

  /** The architecture and OS options of a node section, appended to `listOpts`. */
  method AppendNodeSection(listOpts: seq<ListOption>, nm: NodeMatchCriteria) returns (opts: seq<ListOption>)
    ensures opts == listOpts + NodeSectionFilters(nm)
  {
    opts := listOpts;
    ghost var exact: seq<ListOption> := [];
    if |nm.archLabels| == 1 {
      exact := exact + [MatchingLabels(map[NodeMatch.ArchLabel := nm.archLabels[0]])];
      opts := opts + [MatchingLabels(map[NodeMatch.ArchLabel := nm.archLabels[0]])];
    }
    if |nm.osLabels| == 1 {
      exact := exact + [MatchingLabels(map[NodeMatch.OSLabel := nm.osLabels[0]])];
      opts := opts + [MatchingLabels(map[NodeMatch.OSLabel := nm.osLabels[0]])];
    }
    assert opts == listOpts + exact;
    var selector, added := BuildNodeSelector(nm);
    if added {
      opts := opts + [MatchingLabelsSelector(selector)];
    }
    assert NodeSectionFilters(nm) == exact + (if added then [MatchingLabelsSelector(selector)] else []);
  }

  method FilterNodeList(listOpts: seq<ListOption>, mc: Option<MatchCriteria>) returns (opts: seq<ListOption>)
    ensures opts == listOpts + NodeFilters(mc)
  {
    opts := listOpts;
    if mc.None? {
      return;
    }
    ghost var common: seq<ListOption> := [];
    if mc.value.commonMatch.Some? && |mc.value.commonMatch.value.labels| > 0 {
      common := [MatchingLabels(mc.value.commonMatch.value.labels)];
      opts := opts + [MatchingLabels(mc.value.commonMatch.value.labels)];
    }
    ghost var section: seq<ListOption> := [];
    if mc.value.nodeMatch.Some? {
      section := NodeSectionFilters(mc.value.nodeMatch.value);
      opts := AppendNodeSection(opts, mc.value.nodeMatch.value);
    }
    assert opts == listOpts + (common + section);
  }

  // ----- what the options mean -----

  /** Every criterion value that a selector would compare is non-empty. */
  predicate NoEmptyValues(mc: Option<MatchCriteria>)
  {
    mc.Some? ==>
      && (mc.value.commonMatch.Some? ==> forall k | k in mc.value.commonMatch.value.labels
                                                :: mc.value.commonMatch.value.labels[k] != "")
      && (mc.value.nodeMatch.Some? ==> "" !in mc.value.nodeMatch.value.archLabels
                                       && "" !in mc.value.nodeMatch.value.osLabels)
  }

  /** The namespace and every common label hold (absent labels read as ""). */
  ghost predicate InScope(mc: Option<MatchCriteria>, meta: ObjectMeta)
  {
    mc.None? || mc.value.commonMatch.None? ||
    ((mc.value.commonMatch.value.namespace == "" || meta.namespace == mc.value.commonMatch.value.namespace)
     && AllEntriesMatch(mc.value.commonMatch.value.labels, meta.labels))
  }

  /**
   * A list with a namespace option and an equality selector returns exactly
   * the objects both admit.
   */
  lemma NamespacedListing(mc: Option<MatchCriteria>, meta: ObjectMeta)
    ensures ListAdmits(NamespacedFilters(mc), meta) <==> AdmitsAll(NamespacedFilters(mc), meta)
  {
    EqualitiesListed(NamespacedFilters(mc), meta);
  }

  /**
   * A list whose options are equality selectors, after at most one leading
   * namespace option, returns what every option admits.
   */
  lemma {:induction false} EqualitiesListed(opts: seq<ListOption>, meta: ObjectMeta)
    requires forall i | 0 <= i < |opts| :: opts[i].MatchingLabels? || (i == 0 && opts[i].InNamespace?)
    ensures ListAdmits(opts, meta) <==> AdmitsAll(opts, meta)
  {
    if |opts| == 1 {
      assert opts[..0] == [];
      assert AdmitsAll(opts, meta) == OptionAdmits(opts[0], meta);
      assert NamespaceAdmits(opts[..0], meta) && SelectorAdmits(opts[..0], meta);
    } else if opts != [] {
      var init := opts[..|opts| - 1];
      assert opts[|opts| - 1].MatchingLabels?;
      assert forall i | 0 <= i < |init| :: init[i] == opts[i];
      EqualitiesListed(init, meta);
      assert opts == init + [opts[|opts| - 1]];
      AdmitsAllAppend(init, [opts[|opts| - 1]], meta);
    }
  }

  /**
   * What the Node options admit. When a set-based term was built, the listing
   * is that selector alone: it replaces the common-label and single-value
   * selectors appended before it. Otherwise every option applies.
   */
  lemma NodeListingMeaning(mc: Option<MatchCriteria>, meta: ObjectMeta)
    ensures ListAdmits(NodeFilters(mc), meta) <==>
            if mc.Some? && mc.value.nodeMatch.Some? && |NodeSelectorTerms(mc.value.nodeMatch.value)| > 0
            then OptionAdmits(MatchingLabelsSelector(NodeSelectorTerms(mc.value.nodeMatch.value)), meta)
            else AdmitsAll(NodeFilters(mc), meta)
  {
    var opts := NodeFilters(mc);
    if mc.Some? && mc.value.nodeMatch.Some? && |NodeSelectorTerms(mc.value.nodeMatch.value)| > 0 {
      var terms := NodeSelectorTerms(mc.value.nodeMatch.value);
      assert opts[|opts| - 1] == MatchingLabelsSelector(terms);
      NoNamespaceListed(opts, meta);
    } else {
      EqualitiesListed(opts, meta);
    }
  }

  lemma {:induction false} NoNamespaceListed(opts: seq<ListOption>, meta: ObjectMeta)
    requires forall i | 0 <= i < |opts| :: !opts[i].InNamespace?
    ensures NamespaceAdmits(opts, meta)
  {
    if opts != [] {
      var init := opts[..|opts| - 1];
      assert forall i | 0 <= i < |init| :: init[i] == opts[i];
      NoNamespaceListed(init, meta);
    }
  }

  /** Two common architecture names are valid label values. */
  lemma ArchValuesValid()
    ensures InRequirementFor(NodeMatch.ArchLabel, ["amd64", "arm64"])
         == Some(InRequirement(NodeMatch.ArchLabel, ["amd64", "arm64"]))
  {
    assert ValidLabelValue("amd64") by {
      assert forall i | 0 <= i < 5 :: IsAlphanumeric("amd64"[i]);
    }
    assert ValidLabelValue("arm64") by {
      assert forall i | 0 <= i < 5 :: IsAlphanumeric("arm64"[i]);
    }
  }

  /**
   * The set-based selector drops the common labels: with an empty common label
   * value and two architectures, a node without that label is listed, is
   * accepted by the node matcher, and yet fails the common-label option.
   */
  lemma SelectorReplacesEarlierLabels()
    ensures var mc := Some(MatchCriteria(Some(CommonMatchCriteria(map["team" := ""], map[], "", "")), None,
                                         Some(NodeMatchCriteria(["amd64", "arm64"], [], [], "", "")), None));
            var node := Node(ObjectMeta("", "worker-1", map[NodeMatch.ArchLabel := "amd64"], map[]), [],
                             NodeSystemInfo("", ""));
            ListAdmits(NodeFilters(mc), node.meta) && NodeMatch.Accepts(mc, node)
            && !AdmitsAll(NodeFilters(mc), node.meta)
  {
    var nm := NodeMatchCriteria(["amd64", "arm64"], [], [], "", "");
    var cm := CommonMatchCriteria(map["team" := ""], map[], "", "");
    var mc := Some(MatchCriteria(Some(cm), None, Some(nm), None));
    var meta := ObjectMeta("", "worker-1", map[NodeMatch.ArchLabel := "amd64"], map[]);
    var node := Node(meta, [], NodeSystemInfo("", ""));
    ArchValuesValid();
    var terms := [InRequirement(NodeMatch.ArchLabel, ["amd64", "arm64"])];
    assert NodeSelectorTerms(nm) == terms;
    var opts := [MatchingLabels(map["team" := ""]), MatchingLabelsSelector(terms)];
    assert NodeFilters(mc) == opts;
    assert RequirementAdmits(terms[0], meta.labels);
    assert OptionAdmits(opts[1], meta);
    NodeListingMeaning(mc, meta);
    assert !OptionAdmits(opts[0], meta);
    assert NodeMatch.CommonAccepts(cm, meta) by {
      assert Lookup(meta.labels, "team") == "";
    }
    assert NodeMatch.SectionAccepts(nm, node);
  }

  /**
   * What the Pod and Deployment options admit: objects in scope, exactly, when
   * no label value is empty; in any case only objects in scope.
   */
  lemma NamespacedFiltersMeaning(mc: Option<MatchCriteria>, meta: ObjectMeta)
    ensures ListAdmits(NamespacedFilters(mc), meta) ==> InScope(mc, meta)
    ensures NoEmptyValues(mc) ==> (ListAdmits(NamespacedFilters(mc), meta) <==> InScope(mc, meta))
  {
    NamespacedListing(mc, meta);
    if mc.Some? && mc.value.commonMatch.Some? {
      var cm := mc.value.commonMatch.value;
      var ns: seq<ListOption> := if cm.namespace != "" then [InNamespace(cm.namespace)] else [];
      var ls: seq<ListOption> := if |cm.labels| > 0 then [MatchingLabels(cm.labels)] else [];
      AdmitsAllAppend(ns, ls, meta);
      if cm.namespace != "" {
        assert ns[0] == InNamespace(cm.namespace);
      }
      assert AdmitsAll(ns, meta) <==> cm.namespace == "" || meta.namespace == cm.namespace;
      if |cm.labels| > 0 {
        assert ls[0] == MatchingLabels(cm.labels);
        assert AdmitsAll(ls, meta) <==> OptionAdmits(MatchingLabels(cm.labels), meta);
        if AdmitsAll(ls, meta) {
          assert AllEntriesMatch(cm.labels, meta.labels);
        }
        if NoEmptyValues(mc) && AllEntriesMatch(cm.labels, meta.labels) {
          forall k | k in cm.labels
            ensures k in meta.labels && meta.labels[k] == cm.labels[k]
          {
            assert Lookup(meta.labels, k) == cm.labels[k] != "";
          }
        }
      }
    }
  }

  /**
   * For Pods the options and the matching package's matcher together decide
   * exactly what the helpers package's full matcher decides.
   */
  lemma PodPushdownEquivalent(mc: Option<MatchCriteria>, pod: Pod)
    requires NoEmptyValues(mc)
    ensures PodMatchFull.Accepts(mc, pod) <==> ListAdmits(NamespacedFilters(mc), pod.meta) && PodMatch.Accepts(mc, pod)
  {
    NamespacedFiltersMeaning(mc, pod.meta);
    if InScope(mc, pod.meta) {
      PodMatchFull.AgreesWithPushedMatcher(mc, pod);
    }
  }

  /**
   * An empty label value is where the pushed and in-memory checks part: the
   * matcher reads a missing label as "", but the selector wants it present.
   */
  lemma EmptyLabelValueExcluded()
    ensures var mc := Some(MatchCriteria(Some(CommonMatchCriteria(map["team" := ""], map[], "", "")), None, None, None));
            var pod := Pod(ObjectMeta("default", "web", map[], map[]), PodSpec(false, "", map[], "", []));
            PodMatchFull.Accepts(mc, pod) && !ListAdmits(NamespacedFilters(mc), pod.meta)
  {
    var mc := Some(MatchCriteria(Some(CommonMatchCriteria(map["team" := ""], map[], "", "")), None, None, None));
    var pod := Pod(ObjectMeta("default", "web", map[], map[]), PodSpec(false, "", map[], "", []));
    assert NamespacedFilters(mc) == [MatchingLabels(map["team" := ""])];
    assert !OptionAdmits(NamespacedFilters(mc)[0], pod.meta);
    NamespacedListing(mc, pod.meta);
  }

  /** No Node option scopes by namespace: Nodes are cluster-scoped. */
  lemma NodeFiltersNeverNamespaced(mc: Option<MatchCriteria>)
    ensures forall i | 0 <= i < |NodeFilters(mc)| :: !NodeFilters(mc)[i].InNamespace?
  {
  }

  lemma {:induction false} MembershipPresent(wants: seq<string>, labels: map<string, string>, key: string)
    requires "" !in wants && Lookup(labels, key) in wants
    ensures key in labels && labels[key] in wants
  {
  }

  /** The architecture and OS options admit every node whose labels the node matcher accepts. */
  lemma NodeSectionFiltersSound(nm: NodeMatchCriteria, node: Node)
    requires "" !in nm.archLabels && "" !in nm.osLabels
    requires NodeMatch.SectionAccepts(nm, node)
    ensures AdmitsAll(NodeSectionFilters(nm), node.meta)
  {
    var labels := node.meta.labels;
    if |nm.archLabels| > 0 {
      MembershipPresent(nm.archLabels, labels, NodeMatch.ArchLabel);
    }
    if |nm.osLabels| > 0 {
      MembershipPresent(nm.osLabels, labels, NodeMatch.OSLabel);
    }
    var arch: seq<ListOption> := if |nm.archLabels| == 1 then [MatchingLabels(map[NodeMatch.ArchLabel := nm.archLabels[0]])] else [];
    var os: seq<ListOption> := if |nm.osLabels| == 1 then [MatchingLabels(map[NodeMatch.OSLabel := nm.osLabels[0]])] else [];
    var terms := NodeSelectorTerms(nm);
    var sel: seq<ListOption> := if |terms| > 0 then [MatchingLabelsSelector(terms)] else [];
    assert AdmitsAll(arch, node.meta);
    assert AdmitsAll(os, node.meta);
    assert AdmitsAll(sel, node.meta);
    AdmitsAllAppend(arch, os, node.meta);
    AdmitsAllAppend(arch + os, sel, node.meta);
  }

  /** Node listing never drops a node the node matcher would accept. */
  lemma NodePushdownSound(mc: Option<MatchCriteria>, node: Node)
    requires NoEmptyValues(mc)
    requires NodeMatch.Accepts(mc, node)
    ensures AdmitsAll(NodeFilters(mc), node.meta)
    ensures ListAdmits(NodeFilters(mc), node.meta)
  {
    if mc.Some? {
      var common: seq<ListOption> := if mc.value.commonMatch.Some? && |mc.value.commonMatch.value.labels| > 0
                                     then [MatchingLabels(mc.value.commonMatch.value.labels)] else [];
      var section := if mc.value.nodeMatch.Some? then NodeSectionFilters(mc.value.nodeMatch.value) else [];
      if mc.value.nodeMatch.Some? {
        NodeSectionFiltersSound(mc.value.nodeMatch.value, node);
      }
      assert AdmitsAll(common, node.meta);
      AdmitsAllAppend(common, section, node.meta);
    }
    AdmitsAllListed(NodeFilters(mc), node.meta);
  }

  /**
   * A value that fails validation drops its set-based term, so the listing
   * admits more nodes; the in-memory matcher still decides.
   */
  lemma InvalidValueDropsTerm(nm: NodeMatchCriteria)
    requires |nm.archLabels| > 1 && !ValidLabelValue(nm.archLabels[0])
    requires |nm.osLabels| <= 1
    ensures NodeSelectorTerms(nm) == []
  {
  }
}
