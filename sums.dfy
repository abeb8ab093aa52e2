/** Finite sums and orderings over sets of natural-number keys.
    Database ids are natural numbers; summing a table's rows and listing them
    in a fixed order both walk the keys from the least upwards. */
module Sums {

  /** `m` is the least element of `s`. */
  predicate IsLeast(m: nat, s: set<nat>) {
    m in s && forall x :: x in s ==> m <= x
  }

  /** Every non-empty finite set of naturals has a least element. */
  lemma {:induction false} MinExists(s: set<nat>)
    requires s != {}
    ensures exists m :: IsLeast(m, s)
  {
    var y :| y in s;
    if s == {y} {
      assert IsLeast(y, s);
    } else {
      var rest := s - {y};
      MinExists(rest);
      var m :| IsLeast(m, rest);
      var least := if y < m then y else m;
      forall x | x in s
        ensures least <= x
      {
        if x != y {
          assert x in rest;
        }
      }
      assert IsLeast(least, s);
    }
  }

  /** The least element of a non-empty set. */
  function MinOf(s: set<nat>): (m: nat)
    requires s != {}
    ensures m in s
    ensures forall x :: x in s ==> m <= x
  {
    MinExists(s);
    var m :| IsLeast(m, s); m
  }

  /** The sum of the values of a map, taken key by key from the least key. */
  function SumValues(m: map<nat, int>): int
    decreases |m|
  {
    if m == map[] then 0
    else
      assert m.Keys != {};
      var k := MinOf(m.Keys);
      m[k] + SumValues(m - {k})
  }

  /** The sum does not depend on the order: any entry can be taken out first. */
  lemma {:induction false} SumValuesRemove(m: map<nat, int>, k: nat)
    requires k in m
    ensures SumValues(m) == m[k] + SumValues(m - {k})
    decreases |m|
  {
    assert m.Keys != {};
    var j := MinOf(m.Keys);
    if j != k {
      SumValuesRemove(m - {j}, k);
      var rest := m - {k};
      assert rest.Keys == m.Keys - {k};
      assert j in rest.Keys;
      assert MinOf(rest.Keys) in m.Keys;
      assert MinOf(rest.Keys) == j;
      assert (m - {j}) - {k} == rest - {j};
    }
  }

  /** The elements of a set, in strictly increasing order. */
  function SortedIds(s: set<nat>): (r: seq<nat>)
    ensures |r| == |s|
    ensures forall x :: x in r <==> x in s
    ensures forall i, j :: 0 <= i < j < |r| ==> r[i] < r[j]
    decreases |s|
  {
    if s == {} then []
    else
      var m := MinOf(s);
      [m] + SortedIds(s - {m})
  }
}
