/**
 * SetCondition: the rule's condition list is keyed by condition type; a
 * condition of a type already present replaces the first entry of that type
 * in its position, otherwise it is appended. Every write stamps the rule's
 * generation and the current time.
 */
module Conditions {
  import opened Wrappers
  import opened Api

  /** The position of the first condition of type `t`, if any. */
  function FirstIndexOfType(conds: seq<Condition>, t: string): (r: Option<nat>)
    ensures r.Some? ==> r.value < |conds| && conds[r.value].condType == t
                        && forall j | 0 <= j < r.value :: conds[j].condType != t
    ensures r.None? ==> forall j | 0 <= j < |conds| :: conds[j].condType != t
    decreases |conds|
  {
    if conds == [] then None
    else if conds[0].condType == t then Some(0)
    else
      var rest := FirstIndexOfType(conds[1..], t);
      if rest.Some? then Some(rest.value + 1) else None
  }

  /** The list after setting `c`: replace the first entry of its type, or append. */
  function Upsert(conds: seq<Condition>, c: Condition): seq<Condition>
  {
    var i := FirstIndexOfType(conds, c.condType);
    if i.Some? then conds[i.value := c] else conds + [c]
  }

  /** No two conditions share a type. */
  predicate UniqueTypes(conds: seq<Condition>)
  {
    forall i, j | 0 <= i < j < |conds| :: conds[i].condType != conds[j].condType
  }

  /** The condition of type `t`, if any (the first one). */
  function ConditionOf(conds: seq<Condition>, t: string): Option<Condition>
  {
    var i := FirstIndexOfType(conds, t);
    if i.Some? then Some(conds[i.value]) else None
  }

  /** The entries of every other type, in order. */
  function Others(conds: seq<Condition>, t: string): (r: seq<Condition>)
    ensures forall i | 0 <= i < |r| :: r[i].condType != t
    decreases |conds|
  {
    if conds == [] then []
    else if conds[0].condType == t then Others(conds[1..], t)
    else [conds[0]] + Others(conds[1..], t)
  }

  /** The new condition is the one its type now reads as. */
  lemma UpsertSets(conds: seq<Condition>, c: Condition)
    ensures ConditionOf(Upsert(conds, c), c.condType) == Some(c)
  {
    var i := FirstIndexOfType(conds, c.condType);
    var u := Upsert(conds, c);
    var j := FirstIndexOfType(u, c.condType);
    if i.Some? {
      assert u[i.value] == c;
      assert j.value <= i.value;
    } else {
      assert u[|conds|] == c;
      assert j.value == |conds|;
    }
  }

  /** A replaced entry keeps its position; otherwise the list grows by one at the end. */
  lemma UpsertShape(conds: seq<Condition>, c: Condition)
    ensures FirstIndexOfType(conds, c.condType).Some? ==>
              |Upsert(conds, c)| == |conds|
              && Upsert(conds, c)[FirstIndexOfType(conds, c.condType).value] == c
    ensures FirstIndexOfType(conds, c.condType).None? ==> Upsert(conds, c) == conds + [c]
  {
  }

  lemma {:induction false} OthersUpdate(conds: seq<Condition>, i: nat, c: Condition)
    requires i < |conds| && conds[i].condType == c.condType
    ensures Others(conds[i := c], c.condType) == Others(conds, c.condType)
    decreases |conds|
  {
    if i > 0 {
      assert conds[i := c][1..] == conds[1..][i - 1 := c];
      OthersUpdate(conds[1..], i - 1, c);
    } else {
      assert conds[i := c][1..] == conds[1..];
    }
  }

  lemma {:induction false} OthersAppend(conds: seq<Condition>, c: Condition)
    ensures Others(conds + [c], c.condType) == Others(conds, c.condType)
    decreases |conds|
  {
    if conds == [] {
      assert Others([c][1..], c.condType) == [];
    } else {
      assert (conds + [c])[1..] == conds[1..] + [c];
      OthersAppend(conds[1..], c);
    }
  }

  /** Conditions of every other type are untouched, in order. */
  lemma UpsertKeepsOthers(conds: seq<Condition>, c: Condition)
    ensures Others(Upsert(conds, c), c.condType) == Others(conds, c.condType)
  {
    var i := FirstIndexOfType(conds, c.condType);
    if i.Some? {
      OthersUpdate(conds, i.value, c);
    } else {
      OthersAppend(conds, c);
    }
  }

  /** Every other type reads as before: setting Ready leaves Degraded and Suspended as they were. */
  lemma UpsertLeavesOtherTypes(conds: seq<Condition>, c: Condition, t: string)
    requires t != c.condType
    ensures ConditionOf(Upsert(conds, c), t) == ConditionOf(conds, t)
  {
    var u := Upsert(conds, c);
    assert forall j | 0 <= j < |u| :: (u[j].condType == t <==> j < |conds| && conds[j].condType == t);
    var a := FirstIndexOfType(conds, t);
    var b := FirstIndexOfType(u, t);
    if a.Some? {
      assert b.Some? && b.value == a.value;
    } else {
      assert b.None?;
    }
  }

  /** A list with one entry per type keeps that property. */
  lemma UpsertKeepsUnique(conds: seq<Condition>, c: Condition)
    requires UniqueTypes(conds)
    ensures UniqueTypes(Upsert(conds, c))
  {
  }

  /**
   * Setting two conditions of one type leaves only the second: a later
   * Ready condition overwrites an earlier one.
   */
  lemma UpsertOverwrites(conds: seq<Condition>, c1: Condition, c2: Condition)
    requires c1.condType == c2.condType
    ensures Upsert(Upsert(conds, c1), c2) == Upsert(conds, c2)
  {
    var i := FirstIndexOfType(conds, c1.condType);
    var u := Upsert(conds, c1);
    var j := FirstIndexOfType(u, c1.condType);
    if i.Some? {
      assert u[i.value] == c1;
      assert j.value == i.value;
    } else {
      assert u[|conds|] == c1;
      assert j.value == |conds|;
    }
  }

  /** SetCondition: upsert a condition stamped with the rule's generation and `now`. */
  method SetCondition(rule: ClassificationRule, condType: string, status: ConditionStatus,
                      reason: string, msg: string, now: Time)
    modifies rule
    ensures rule.status == old(rule.status).(conditions := Upsert(old(rule.status.conditions),
                                               Condition(condType, status, rule.meta.generation, reason, msg, now)))
  {
    var cond := Condition(condType, status, rule.meta.generation, reason, msg, now);
    var conds := rule.status.conditions;
    var replaced := false;
    var i := 0;
    while i < |conds|
      invariant 0 <= i <= |conds|
      invariant !replaced
      invariant forall j | 0 <= j < i :: conds[j].condType != condType
    {
      if conds[i].condType == condType {
        conds := conds[i := cond];
        replaced := true;
        break;
      }
      i := i + 1;
    }
    if !replaced {
      conds := conds + [cond];
    }
    rule.status := rule.status.(conditions := conds);
  }
}
