/**
 * Helpers for Go's map[string]string as the controller reads it: a lookup of an
 * absent key yields the zero value "", and `range` visits every key exactly once
 * in an order the runtime chooses.
 */
module LabelMaps {

  /** Go's `m[k]` on a map[string]string: the stored value, or "" when `k` is absent. */
  function Lookup(m: map<string, string>, k: string): string
  {
    if k in m then m[k] else ""
  }

  predicate Distinct(ks: seq<string>)
  {
    forall i, j :: 0 <= i < j < |ks| ==> ks[i] != ks[j]
  }

  lemma DistinctConcat(a: seq<string>, b: seq<string>)
    requires Distinct(a) && Distinct(b)
    requires forall x | x in a :: x !in b
    ensures Distinct(a + b)
  {
    forall i, j | 0 <= i < j < |a + b| ensures (a + b)[i] != (a + b)[j] {
      if j >= |a| && i < |a| {
        assert (a + b)[i] in a && (a + b)[j] in b;
      }
    }
  }

  /** `ks` lists the elements of `s`, each exactly once. */
  ghost predicate ListsSet(ks: seq<string>, s: set<string>)
  {
    Distinct(ks) && forall k :: k in s <==> k in ks
  }

  /** `ks` is an order in which `range m` may visit the keys of `m`. */
  ghost predicate Enumerates(ks: seq<string>, m: map<string, string>)
  {
    ListsSet(ks, m.Keys)
  }

  lemma {:induction false} ListingExists(s: set<string>)
    ensures exists ks :: ListsSet(ks, s)
    decreases s
  {
    if s == {} {
      assert ListsSet([], s);
    } else {
      var x :| x in s;
      ListingExists(s - {x});
      var ks :| ListsSet(ks, s - {x});
      assert ListsSet([x] + ks, s);
    }
  }

  /** Some visiting order of a finite set: the runtime's choice, left unspecified. */
  ghost function SomeListing(s: set<string>): (ks: seq<string>)
    ensures ListsSet(ks, s)
  {
    ListingExists(s);
    var ks :| ListsSet(ks, s);
    ks
  }

  /** A visiting order has exactly one entry per key. */
  lemma {:induction false} ListingLength(ks: seq<string>, s: set<string>)
    requires ListsSet(ks, s)
    ensures |ks| == |s|
    decreases |ks|
  {
    if ks != [] {
      var rest := ks[1..];
      assert ListsSet(rest, s - {ks[0]}) by {
        forall k ensures k in s - {ks[0]} <==> k in rest {
          if k in rest {
            var j :| 0 <= j < |rest| && rest[j] == k;
            assert ks[j + 1] == k;
          }
          if k in s - {ks[0]} {
            assert k in ks;
            var j :| 0 <= j < |ks| && ks[j] == k;
            assert j != 0;
            assert rest[j - 1] == k;
          }
        }
      }
      ListingLength(rest, s - {ks[0]});
    } else {
      assert forall k :: k !in s;
      assert s == {};
    }
  }
}
