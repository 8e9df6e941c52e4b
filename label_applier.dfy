/**
 * ApplyLabelsToObject: write every rule label whose value differs from the
 * object's, always overwriting; report whether anything changed. A missing
 * label reads as "", so a rule label with an empty value is never added.
 */
module LabelApplier {
  import opened LabelMaps

  /** The label map of a listed object, which the applier changes in place. */
  class LabelledObject {
    var labels: map<string, string>

    constructor (labels: map<string, string>)
      ensures this.labels == labels
    {
      this.labels := labels;
    }
  }

  /**
   * The labels after applying `rule`: every rule key reads as the rule's value,
   * every other key as before, and no key is added with an empty value.
   */
  function MergeLabels(current: map<string, string>, rule: map<string, string>): (m: map<string, string>)
    ensures forall k :: Lookup(m, k) == if k in rule then rule[k] else Lookup(current, k)
    ensures forall k :: k in m <==> k in current || (k in rule && rule[k] != "")
  {
    map k | k in current.Keys + rule.Keys && (k in current || rule[k] != "")
      :: if k in rule then rule[k] else current[k]
  }

  /** Some rule key reads differently on the object: the condition for a write. */
  predicate LabelsDiffer(current: map<string, string>, rule: map<string, string>)
  {
    exists k | k in rule :: Lookup(current, k) != rule[k]
  }

  /** The rule labels of keys already visited. */
  function Restrict(rule: map<string, string>, done: set<string>): (r: map<string, string>)
    ensures r.Keys == rule.Keys * done
    ensures forall k | k in r :: r[k] == rule[k]
  {
    map k | k in rule && k in done :: rule[k]
  }

  /** A write happens exactly when the merged labels differ from the current ones. */
  lemma ChangedIffDifferent(current: map<string, string>, rule: map<string, string>)
    ensures LabelsDiffer(current, rule) <==> MergeLabels(current, rule) != current
  {
    var merged := MergeLabels(current, rule);
    if LabelsDiffer(current, rule) {
      var k :| k in rule && Lookup(current, k) != rule[k];
      assert Lookup(merged, k) != Lookup(current, k);
    } else {
      forall k | k in current
        ensures k in merged && merged[k] == current[k]
      {
        assert Lookup(merged, k) == Lookup(current, k);
      }
    }
  }

  /** Applying the same labels a second time changes nothing. */
  lemma MergeIdempotent(current: map<string, string>, rule: map<string, string>)
    ensures MergeLabels(MergeLabels(current, rule), rule) == MergeLabels(current, rule)
    ensures !LabelsDiffer(MergeLabels(current, rule), rule)
  {
    ChangedIffDifferent(MergeLabels(current, rule), rule);
  }

  /** A rule without labels reports no change and leaves the labels as they are. */
  lemma EmptyRuleChangesNothing(current: map<string, string>)
    ensures !LabelsDiffer(current, map[])
    ensures MergeLabels(current, map[]) == current
  {
    ChangedIffDifferent(current, map[]);
  }

  /** No conflict policy: a conflicting value is overwritten and new keys are added. */
  lemma OverwritesConflicts()
    ensures MergeLabels(map["env" := "staging"], map["env" := "prod", "tier" := "x"])
         == map["env" := "prod", "tier" := "x"]
  {
    var m := MergeLabels(map["env" := "staging"], map["env" := "prod", "tier" := "x"]);
    assert Lookup(m, "env") == "prod" && Lookup(m, "tier") == "x";
    assert m.Keys == {"env", "tier"};
  }

  lemma RestrictAll(rule: map<string, string>)
    ensures Restrict(rule, rule.Keys) == rule
  {
  }

  /** Visiting one more key extends the partial merge by that key. */
  lemma MergeStep(current: map<string, string>, rule: map<string, string>, done: set<string>, k: string,
                  m: map<string, string>)
    requires k in rule && k !in done
    requires m == MergeLabels(current, Restrict(rule, done))
    ensures Lookup(m, k) == Lookup(current, k)
    ensures MergeLabels(current, Restrict(rule, done + {k}))
         == if Lookup(m, k) != rule[k] then m[k := rule[k]] else m
  {
    var next := MergeLabels(current, Restrict(rule, done + {k}));
    var expected := if Lookup(m, k) != rule[k] then m[k := rule[k]] else m;
    forall j
      ensures j in next <==> j in expected
      ensures j in next ==> next[j] == expected[j]
    {
      assert Lookup(next, j) == Lookup(expected, j);
    }
  }

  lemma DifferStep(current: map<string, string>, rule: map<string, string>, done: set<string>, k: string)
    requires k in rule
    ensures LabelsDiffer(current, Restrict(rule, done + {k}))
        <==> LabelsDiffer(current, Restrict(rule, done)) || Lookup(current, k) != rule[k]
  {
    var before := Restrict(rule, done);
    var after := Restrict(rule, done + {k});
    if LabelsDiffer(current, after) {
      var j :| j in after && Lookup(current, j) != after[j];
      if j != k {
        assert j in before;
      }
    }
    if LabelsDiffer(current, before) {
      var j :| j in before && Lookup(current, j) != before[j];
      assert j in after;
    }
    if Lookup(current, k) != rule[k] {
      assert k in after;
    }
  }

  /**
   * ApplyLabelsToObject: writes `rule` onto the object's labels; the result
   * says whether any label was written.
   */
  method ApplyLabelsToObject(obj: LabelledObject, rule: map<string, string>) returns (changed: bool)
    modifies obj
    ensures obj.labels == MergeLabels(old(obj.labels), rule)
    ensures changed <==> LabelsDiffer(old(obj.labels), rule)
  {
    if |rule| == 0 {
      assert rule.Keys == {};
      ChangedIffDifferent(obj.labels, rule);
      return false;
    }
    ghost var current := obj.labels;
    var m := obj.labels;
    changed := false;
    var rest := rule.Keys;
    while rest != {}
      invariant rest <= rule.Keys
      invariant obj.labels == current
      invariant m == MergeLabels(current, Restrict(rule, rule.Keys - rest))
      invariant changed <==> LabelsDiffer(current, Restrict(rule, rule.Keys - rest))
      decreases |rest|
    {
      var k :| k in rest;
      ghost var done := rule.Keys - rest;
      MergeStep(current, rule, done, k, m);
      if Lookup(m, k) != rule[k] {
        m := m[k := rule[k]];
        changed := true;
      }
      rest := rest - {k};
      assert rule.Keys - rest == done + {k};
      DifferStep(current, rule, done, k);
    }
    assert rule.Keys - rest == rule.Keys;
    RestrictAll(rule);
    if changed {
      obj.labels := m;
    } else {
      ChangedIffDifferent(current, rule);
    }
  }
}
