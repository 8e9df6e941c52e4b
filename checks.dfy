/**
 * The building blocks shared by the three matchers. Each check yields an
 * Outcome: whether it passed and the trail of field identifiers it appended.
 * A matcher runs its checks in order and stops at the first failing one, so its
 * outcome is the `Then`-composition of its checks' outcomes.
 */
module Checks {
  import opened Wrappers
  import opened LabelMaps
  import opened Text
  import opened Api

  datatype Outcome = Outcome(ok: bool, fields: seq<string>)

  /** A criterion left empty: nothing checked, nothing recorded. */
  const Skipped := Outcome(true, [])

  /** A failed comparison: `return false, matchedFields` with nothing new recorded. */
  const Failed := Outcome(false, [])

  function Passed(field: string): Outcome
  {
    Outcome(true, [field])
  }

  /** Run `a`, and `b` only if `a` passed; the trail accumulates. */
  function Then(a: Outcome, b: Outcome): Outcome
  {
    if !a.ok then a else Outcome(b.ok, a.fields + b.fields)
  }

  lemma ThenAssociative(a: Outcome, b: Outcome, c: Outcome)
    ensures Then(Then(a, b), c) == Then(a, Then(b, c))
  {
  }

  /**
   * Trail length of a composition: with `la`/`lb` the length a full pass of
   * each part records, a pass records exactly `la + lb` entries and a failure
   * strictly fewer.
   */
  lemma ThenLength(a: Outcome, b: Outcome, la: nat, lb: nat)
    requires a.ok ==> |a.fields| == la
    requires !a.ok ==> |a.fields| < la
    requires b.ok ==> |b.fields| == lb
    requires !b.ok ==> |b.fields| < lb
    ensures Then(a, b).ok ==> |Then(a, b).fields| == la + lb
    ensures !Then(a, b).ok ==> |Then(a, b).fields| < la + lb
  {
  }

  /** `if want != "" { if have != want { fail } ; record field }`. */
  function ExactCheck(want: string, have: string, field: string): Outcome
  {
    if want == "" then Skipped else if have != want then Failed else Passed(field)
  }

  /** `if want != "" { if !strings.Contains(have, want) { fail } ; record field }`. */
  function ContainsCheck(want: string, have: string, field: string): Outcome
  {
    if want == "" then Skipped else if !Contains(have, want) then Failed else Passed(field)
  }

  /** Number of entries a non-empty scalar criterion records on a pass. */
  function Specified(want: string): nat
  {
    if want == "" then 0 else 1
  }

  lemma ExactCheckMeaning(want: string, have: string, field: string)
    ensures ExactCheck(want, have, field).ok <==> want == "" || have == want
    ensures ExactCheck(want, have, field).ok ==> |ExactCheck(want, have, field).fields| == Specified(want)
    ensures !ExactCheck(want, have, field).ok ==> |ExactCheck(want, have, field).fields| < Specified(want)
  {
  }

  lemma ContainsCheckMeaning(want: string, have: string, field: string)
    ensures ContainsCheck(want, have, field).ok <==> want == "" || Contains(have, want)
    ensures ContainsCheck(want, have, field).ok ==> |ContainsCheck(want, have, field).fields| == Specified(want)
    ensures !ContainsCheck(want, have, field).ok ==> |ContainsCheck(want, have, field).fields| < Specified(want)
  {
  }

  /**
   * `for k, v := range want { if have[k] != v { fail } ; record field[k] }`,
   * visiting the keys in the order `ks`.
   */
  function EntriesCheck(want: map<string, string>, have: map<string, string>, ks: seq<string>, field: string): Outcome
    requires forall k | k in ks :: k in want
    decreases |ks|
  {
    if ks == [] then Skipped
    else if Lookup(have, ks[0]) != want[ks[0]] then Failed
    else Then(Passed(field + "[" + ks[0] + "]"), EntriesCheck(want, have, ks[1..], field))
  }

  /** Every key of `want` looks up, in `have`, to the value `want` gives it (absent reads as ""). */
  ghost predicate AllEntriesMatch(want: map<string, string>, have: map<string, string>)
  {
    forall k | k in want :: Lookup(have, k) == want[k]
  }

  lemma {:induction false} EntriesAppend(want: map<string, string>, have: map<string, string>,
                                         xs: seq<string>, ys: seq<string>, field: string)
    requires forall k | k in xs + ys :: k in want
    ensures EntriesCheck(want, have, xs + ys, field)
         == Then(EntriesCheck(want, have, xs, field), EntriesCheck(want, have, ys, field))
    decreases |xs|
  {
    if xs != [] {
      assert (xs + ys)[1..] == xs[1..] + ys;
      EntriesAppend(want, have, xs[1..], ys, field);
      if Lookup(have, xs[0]) == want[xs[0]] {
        ThenAssociative(Passed(field + "[" + xs[0] + "]"), EntriesCheck(want, have, xs[1..], field),
                        EntriesCheck(want, have, ys, field));
      }
    } else {
      assert xs + ys == ys;
    }
  }

  /**
   * The map check passes iff every visited key looks up to its wanted value;
   * a pass records one entry per key, a failure fewer.
   */
  lemma {:induction false} EntriesCheckMeaning(want: map<string, string>, have: map<string, string>,
                                               ks: seq<string>, field: string)
    requires forall k | k in ks :: k in want
    ensures EntriesCheck(want, have, ks, field).ok <==> forall k | k in ks :: Lookup(have, k) == want[k]
    ensures EntriesCheck(want, have, ks, field).ok ==> |EntriesCheck(want, have, ks, field).fields| == |ks|
    ensures !EntriesCheck(want, have, ks, field).ok ==> |EntriesCheck(want, have, ks, field).fields| < |ks|
    decreases |ks|
  {
    if ks != [] {
      EntriesCheckMeaning(want, have, ks[1..], field);
      assert forall k | k in ks :: k == ks[0] || k in ks[1..];
    }
  }

  /** With `ks` a full visiting order of `want`, the check is AllEntriesMatch, whatever the order. */
  lemma EntriesCheckComplete(want: map<string, string>, have: map<string, string>,
                             ks: seq<string>, field: string)
    requires Enumerates(ks, want)
    ensures EntriesCheck(want, have, ks, field).ok <==> AllEntriesMatch(want, have)
    ensures EntriesCheck(want, have, ks, field).ok ==> |EntriesCheck(want, have, ks, field).fields| == |want|
    ensures !EntriesCheck(want, have, ks, field).ok ==> |EntriesCheck(want, have, ks, field).fields| < |want|
  {
    EntriesCheckMeaning(want, have, ks, field);
    ListingLength(ks, want.Keys);
  }

  /** The map-equality loop, visiting keys in whatever order the runtime picks. */
  method CheckEntries(want: map<string, string>, have: map<string, string>, field: string)
    returns (r: Outcome, ghost ks: seq<string>)
    ensures Enumerates(ks, want)
    ensures r == EntriesCheck(want, have, ks, field)
  {
    var rest := want.Keys;
    ks := [];
    r := Skipped;
    while rest != {}
      invariant Distinct(ks)
      invariant forall k :: k in want <==> k in rest || k in ks
      invariant forall k | k in rest :: k !in ks
      invariant r == EntriesCheck(want, have, ks, field) && r.ok
      decreases rest
    {
      var k :| k in rest;
      if Lookup(have, k) != want[k] {
        ghost var tail := SomeListing(rest - {k});
        DistinctConcat([k], tail);
        DistinctConcat(ks, [k] + tail);
        EntriesAppend(want, have, ks, [k] + tail, field);
        assert EntriesCheck(want, have, [k] + tail, field) == Failed;
        ks := ks + ([k] + tail);
        r := Outcome(false, r.fields);
        return;
      }
      EntriesAppend(want, have, ks, [k], field);
      assert EntriesCheck(want, have, [k], field) == Passed(field + "[" + k + "]");
      r := Outcome(true, r.fields + [field + "[" + k + "]"]);
      ks := ks + [k];
      rest := rest - {k};
    }
  }

  /**
   * `for _, want := range wants { if want not in present { fail } ; record field:want }`:
   * every listed string must be present (AND / subset semantics).
   */
  function SubsetCheck(wants: seq<string>, present: set<string>, field: string): Outcome
    decreases |wants|
  {
    if wants == [] then Skipped
    else if wants[0] !in present then Failed
    else Then(Passed(field + ":" + wants[0]), SubsetCheck(wants[1..], present, field))
  }

  lemma {:induction false} SubsetAppend(xs: seq<string>, ys: seq<string>, present: set<string>, field: string)
    ensures SubsetCheck(xs + ys, present, field)
         == Then(SubsetCheck(xs, present, field), SubsetCheck(ys, present, field))
    decreases |xs|
  {
    if xs != [] {
      assert (xs + ys)[1..] == xs[1..] + ys;
      SubsetAppend(xs[1..], ys, present, field);
      if xs[0] in present {
        ThenAssociative(Passed(field + ":" + xs[0]), SubsetCheck(xs[1..], present, field),
                        SubsetCheck(ys, present, field));
      }
    } else {
      assert xs + ys == ys;
    }
  }

  /** The subset check passes iff every listed string is present; a pass records one entry per listed string. */
  lemma {:induction false} SubsetCheckMeaning(wants: seq<string>, present: set<string>, field: string)
    ensures SubsetCheck(wants, present, field).ok <==> forall w | w in wants :: w in present
    ensures SubsetCheck(wants, present, field).ok ==> |SubsetCheck(wants, present, field).fields| == |wants|
    ensures !SubsetCheck(wants, present, field).ok ==> |SubsetCheck(wants, present, field).fields| < |wants|
    decreases |wants|
  {
    if wants != [] {
      SubsetCheckMeaning(wants[1..], present, field);
      assert forall w | w in wants :: w == wants[0] || w in wants[1..];
    }
  }

  method CheckSubset(wants: seq<string>, present: set<string>, field: string) returns (r: Outcome)
    ensures r == SubsetCheck(wants, present, field)
  {
    r := Skipped;
    for i := 0 to |wants|
      invariant r == SubsetCheck(wants[..i], present, field) && r.ok
    {
      SubsetAppend(wants[..i], [wants[i]], present, field);
      assert wants[..i + 1] == wants[..i] + [wants[i]];
      if wants[i] !in present {
        SubsetAppend(wants[..i + 1], wants[i + 1..], present, field);
        assert wants == wants[..i + 1] + wants[i + 1..];
        return Outcome(false, r.fields);
      }
      r := Outcome(true, r.fields + [field + ":" + wants[i]]);
    }
    assert wants[..|wants|] == wants;
  }

  /**
   * `if len(wants) > 0 { found := some want == have ; if !found { fail } ; record field:want }`
   * (OR / membership semantics). The recorded value is the first listed value
   * equal to `have`, which is `have` itself.
   */
  function MembershipCheck(wants: seq<string>, have: string, field: string): Outcome
  {
    if |wants| == 0 then Skipped else if have in wants then Passed(field + ":" + have) else Failed
  }

  function Listed(wants: seq<string>): nat
  {
    if |wants| == 0 then 0 else 1
  }

  lemma MembershipCheckMeaning(wants: seq<string>, have: string, field: string)
    ensures MembershipCheck(wants, have, field).ok <==> |wants| == 0 || have in wants
    ensures MembershipCheck(wants, have, field).ok ==> |MembershipCheck(wants, have, field).fields| == Listed(wants)
    ensures !MembershipCheck(wants, have, field).ok ==> |MembershipCheck(wants, have, field).fields| < Listed(wants)
  {
  }

  method CheckMembership(wants: seq<string>, have: string, field: string) returns (r: Outcome)
    ensures r == MembershipCheck(wants, have, field)
    ensures r.ok <==> |wants| == 0 || exists i :: 0 <= i < |wants| && wants[i] == have
  {
    if |wants| == 0 {
      return Skipped;
    }
    var found := false;
    r := Failed;
    var i := 0;
    while i < |wants|
      invariant 0 <= i <= |wants|
      invariant forall j :: 0 <= j < i ==> wants[j] != have
      invariant r == Failed
    {
      if have == wants[i] {
        found := true;
        r := Passed(field + ":" + wants[i]);
        break;
      }
      i := i + 1;
    }
    if !found {
      return Failed;
    }
  }

  /** Which key orders a matcher used: one per criteria map it iterates. */
  datatype KeyOrder = KeyOrder(labels: seq<string>, annotations: seq<string>, nodeSelector: seq<string>)

  ghost predicate OrderFits(order: KeyOrder, mc: Option<MatchCriteria>)
  {
    && (mc.Some? && mc.value.commonMatch.Some? ==>
          Enumerates(order.labels, mc.value.commonMatch.value.labels)
          && Enumerates(order.annotations, mc.value.commonMatch.value.annotations))
    && (mc.Some? && mc.value.podMatch.Some? ==>
          Enumerates(order.nodeSelector, mc.value.podMatch.value.nodeSelector))
  }

  /** Visiting orders for the maps a matcher leaves unvisited (it returned before reaching them). */
  ghost function AnyOrder(mc: Option<MatchCriteria>): (order: KeyOrder)
    ensures OrderFits(order, mc)
  {
    var cm := if mc.Some? && mc.value.commonMatch.Some? then mc.value.commonMatch.value
              else CommonMatchCriteria(map[], map[], "", "");
    var sel := if mc.Some? && mc.value.podMatch.Some? then mc.value.podMatch.value.nodeSelector else map[];
    KeyOrder(SomeListing(cm.labels.Keys), SomeListing(cm.annotations.Keys), SomeListing(sel.Keys))
  }
}
