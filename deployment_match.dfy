/**
 * MatchesDeploymentDetailed: the Deployment matcher the controller runs after
 * listing. Like the matching package's pod matcher it leaves namespace and
 * common labels to the listing filters and checks name and annotations
 * itself (the same common checks, reused from PodMatch); then replicas,
 * strategy and image pull policy.
 */
module DeploymentMatch {
  import opened Wrappers
  import opened LabelMaps
  import opened Text
  import opened Api
  import opened Resources
  import opened Checks
  import PodMatch

  /** The desired replica count: the spec's value, or 1 when it is unset. */
  function Desired(d: Deployment): Int32
  {
    if d.spec.replicas.Some? then d.spec.replicas.value else 1
  }

  /** The replicas criterion is compared, as a string, with `%d` of the desired count. */
  function ReplicasCheck(want: string, d: Deployment): Outcome
  {
    ExactCheck(want, FormatInt(Desired(d)), "deploymentMatch.replicas")
  }

  function PullPolicies(containers: seq<Container>): set<string>
  {
    set i | 0 <= i < |containers| :: containers[i].imagePullPolicy
  }

  /** Some container of the pod template uses the wanted pull policy. */
  function PullPolicyCheck(want: string, containers: seq<Container>): Outcome
  {
    if want == "" then Skipped
    else if want in PullPolicies(containers) then Passed("deploymentMatch.imagePullPolicy")
    else Failed
  }

  function SectionSpec(dm: DeploymentMatchCriteria, d: Deployment): Outcome
  {
    Then(ReplicasCheck(dm.replicas, d),
    Then(ExactCheck(dm.strategy, d.spec.strategyType, "deploymentMatch.strategy"),
         PullPolicyCheck(dm.imagePullPolicy, d.spec.template.containers)))
  }

  function MatchSpec(mc: Option<MatchCriteria>, d: Deployment, order: KeyOrder): Outcome
    requires OrderFits(order, mc)
  {
    if mc.None? then Skipped
    else
      Then(if mc.value.commonMatch.Some? then PodMatch.CommonSpec(mc.value.commonMatch.value, d.meta, order.annotations)
           else Skipped,
           if mc.value.deploymentMatch.Some? then SectionSpec(mc.value.deploymentMatch.value, d) else Skipped)
  }

  ghost predicate SectionAccepts(dm: DeploymentMatchCriteria, d: Deployment)
  {
    && (dm.replicas == "" || (CanonicalDecimal(dm.replicas) && ParseInt(dm.replicas) == Desired(d)))
    && (dm.strategy == "" || d.spec.strategyType == dm.strategy)
    && (dm.imagePullPolicy == ""
        || exists i :: 0 <= i < |d.spec.template.containers|
                       && d.spec.template.containers[i].imagePullPolicy == dm.imagePullPolicy)
  }

  ghost predicate Accepts(mc: Option<MatchCriteria>, d: Deployment)
  {
    mc.None? ||
    ((mc.value.commonMatch.None? || PodMatch.CommonAccepts(mc.value.commonMatch.value, d.meta))
     && (mc.value.deploymentMatch.None? || SectionAccepts(mc.value.deploymentMatch.value, d)))
  }

  function SectionLength(dm: DeploymentMatchCriteria): nat
  {
    Specified(dm.replicas) + Specified(dm.strategy) + Specified(dm.imagePullPolicy)
  }

  function SuccessLength(mc: Option<MatchCriteria>): nat
  {
    if mc.None? then 0
    else
      (if mc.value.commonMatch.Some? then PodMatch.CommonLength(mc.value.commonMatch.value) else 0)
      + (if mc.value.deploymentMatch.Some? then SectionLength(mc.value.deploymentMatch.value) else 0)
  }

  /**
   * A replicas criterion matches exactly when it is the canonical decimal
   * numeral of the desired count (1 when unset).
   */
  lemma ReplicasCheckMeaning(want: string, d: Deployment)
    requires want != ""
    ensures ReplicasCheck(want, d).ok <==> CanonicalDecimal(want) && ParseInt(want) == Desired(d)
  {
    if CanonicalDecimal(want) {
      ParseRoundTrip(want);
      FormatInjective(ParseInt(want), Desired(d));
    }
    if ReplicasCheck(want, d).ok {
      FormatRoundTrip(Desired(d));
    }
  }

  /** A comparison such as ">3" or a padded count such as "03" never matches any Deployment. */
  lemma NonNumeralReplicasNeverMatch(d: Deployment)
    ensures !ReplicasCheck(">3", d).ok && !ReplicasCheck("==5", d).ok && !ReplicasCheck("03", d).ok
  {
    ReplicasCheckMeaning(">3", d);
    ReplicasCheckMeaning("==5", d);
    ReplicasCheckMeaning("03", d);
  }

  /** An unset replica count is matched by "1" and by no other numeral. */
  lemma UnsetReplicasMeansOne(want: string, d: Deployment)
    requires d.spec.replicas.None? && want != ""
    ensures ReplicasCheck(want, d).ok <==> want == "1"
  {
    ReplicasCheckMeaning(want, d);
    assert ParseNatural("1") == 1;
  }

  lemma SectionSpecMeaning(dm: DeploymentMatchCriteria, d: Deployment)
    ensures SectionSpec(dm, d).ok <==> SectionAccepts(dm, d)
    ensures SectionSpec(dm, d).ok ==> |SectionSpec(dm, d).fields| == SectionLength(dm)
    ensures !SectionSpec(dm, d).ok ==> |SectionSpec(dm, d).fields| < SectionLength(dm)
  {
    var replicas := ReplicasCheck(dm.replicas, d);
    var strategy := ExactCheck(dm.strategy, d.spec.strategyType, "deploymentMatch.strategy");
    var policy := PullPolicyCheck(dm.imagePullPolicy, d.spec.template.containers);
    if dm.replicas != "" {
      ReplicasCheckMeaning(dm.replicas, d);
    }
    ExactCheckMeaning(dm.strategy, d.spec.strategyType, "deploymentMatch.strategy");
    ThenLength(strategy, policy, Specified(dm.strategy), Specified(dm.imagePullPolicy));
    ThenLength(replicas, Then(strategy, policy), Specified(dm.replicas),
               Specified(dm.strategy) + Specified(dm.imagePullPolicy));
  }

  /**
   * The Deployment matcher accepts exactly the Deployments Accepts describes,
   * in any visiting order; a pass records SuccessLength(mc) entries, a failure fewer.
   */
  lemma MatchSpecMeaning(mc: Option<MatchCriteria>, d: Deployment, order: KeyOrder)
    requires OrderFits(order, mc)
    ensures MatchSpec(mc, d, order).ok <==> Accepts(mc, d)
    ensures MatchSpec(mc, d, order).ok ==> |MatchSpec(mc, d, order).fields| == SuccessLength(mc)
    ensures !MatchSpec(mc, d, order).ok ==> |MatchSpec(mc, d, order).fields| < SuccessLength(mc)
  {
    if mc.Some? {
      var c := mc.value;
      var common := if c.commonMatch.Some? then PodMatch.CommonSpec(c.commonMatch.value, d.meta, order.annotations)
                    else Skipped;
      var section := if c.deploymentMatch.Some? then SectionSpec(c.deploymentMatch.value, d) else Skipped;
      if c.commonMatch.Some? {
        PodMatch.CommonSpecMeaning(c.commonMatch.value, d.meta, order.annotations);
      }
      if c.deploymentMatch.Some? {
        SectionSpecMeaning(c.deploymentMatch.value, d);
      }
      ThenLength(common, section,
                 if c.commonMatch.Some? then PodMatch.CommonLength(c.commonMatch.value) else 0,
                 if c.deploymentMatch.Some? then SectionLength(c.deploymentMatch.value) else 0);
    }
  }

  /** An empty Deployment section matches every Deployment and records nothing. */
  lemma EmptySectionMatchesAll(d: Deployment)
    ensures SectionSpec(DeploymentMatchCriteria("", "", ""), d) == Outcome(true, [])
  {
  }

  method CheckPullPolicy(want: string, containers: seq<Container>) returns (r: Outcome)
    ensures r == PullPolicyCheck(want, containers)
  {
    if want == "" {
      return Skipped;
    }
    var matched := false;
    var i := 0;
    while i < |containers|
      invariant 0 <= i <= |containers|
      invariant !matched
      invariant forall j :: 0 <= j < i ==> containers[j].imagePullPolicy != want
    {
      if containers[i].imagePullPolicy == want {
        matched := true;
        break;
      }
      i := i + 1;
    }
    if !matched {
      return Failed;
    }
    return Passed("deploymentMatch.imagePullPolicy");
  }

  method CheckSection(dm: DeploymentMatchCriteria, d: Deployment) returns (r: Outcome)
    ensures r == SectionSpec(dm, d)
  {
    ghost var replicas := ReplicasCheck(dm.replicas, d);
    ghost var strategy := ExactCheck(dm.strategy, d.spec.strategyType, "deploymentMatch.strategy");
    var fields: seq<string> := [];
    if dm.replicas != "" {
      var desired: Int32 := 1;
      if d.spec.replicas.Some? {
        desired := d.spec.replicas.value;
      }
      assert desired == Desired(d);
      if FormatInt(desired) != dm.replicas {
        assert !replicas.ok;
        return Failed;
      }
      fields := fields + ["deploymentMatch.replicas"];
    }
    assert replicas == Outcome(true, fields);
    if dm.strategy != "" {
      if d.spec.strategyType != dm.strategy {
        assert !strategy.ok;
        return Outcome(false, fields);
      }
      fields := fields + ["deploymentMatch.strategy"];
    }
    assert Then(replicas, strategy) == Outcome(true, fields);
    var policy := CheckPullPolicy(dm.imagePullPolicy, d.spec.template.containers);
    return Outcome(policy.ok, fields + policy.fields);
  }

  /** MatchesDeploymentDetailed: whether the Deployment matches and the trail of matched fields. */
  method MatchesDeploymentDetailed(mc: Option<MatchCriteria>, d: Deployment)
    returns (ok: bool, matchedFields: seq<string>, ghost order: KeyOrder)
    ensures OrderFits(order, mc)
    ensures Outcome(ok, matchedFields) == MatchSpec(mc, d, order)
    ensures ok <==> Accepts(mc, d)
    ensures mc.None? ==> ok && matchedFields == []
  {
    order := AnyOrder(mc);
    matchedFields := [];
    if mc.None? {
      return true, matchedFields, order;
    }
    if mc.value.commonMatch.Some? {
      var common, annotationOrder := PodMatch.CheckCommon(mc.value.commonMatch.value, d.meta);
      order := order.(annotations := annotationOrder);
      matchedFields := matchedFields + common.fields;
      if !common.ok {
        MatchSpecMeaning(mc, d, order);
        return false, matchedFields, order;
      }
    }
    ghost var common := if mc.value.commonMatch.Some?
                        then PodMatch.CommonSpec(mc.value.commonMatch.value, d.meta, order.annotations) else Skipped;
    assert common == Outcome(true, matchedFields);
    if mc.value.deploymentMatch.Some? {
      var section := CheckSection(mc.value.deploymentMatch.value, d);
      assert MatchSpec(mc, d, order) == Then(common, section);
      matchedFields := matchedFields + section.fields;
      if !section.ok {
        MatchSpecMeaning(mc, d, order);
        return false, matchedFields, order;
      }
    }
    MatchSpecMeaning(mc, d, order);
    return true, matchedFields, order;
  }
}
