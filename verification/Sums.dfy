/** Sums over the values of a finite map. */
module Sums {
  import opened Common

  ghost function Sum(m: map<Id, nat>): nat
    decreases |m|
  {
    if m.Keys == {} then 0
    else
      var k :| k in m.Keys;
      m[k] + Sum(m - {k})
  }

  lemma {:induction false} SumSplit(m: map<Id, nat>, k: Id)
    requires k in m
    ensures Sum(m) == m[k] + Sum(m - {k})
    decreases |m|
  {
    var c :| c in m.Keys && Sum(m) == m[c] + Sum(m - {c});
    if c != k {
      SumSplit(m - {c}, k);
      SumSplit(m - {k}, c);
      assert m - {c} - {k} == m - {k} - {c};
    }
  }

  lemma SumAdd(m: map<Id, nat>, k: Id, v: nat)
    requires k !in m
    ensures Sum(m[k := v]) == Sum(m) + v
  {
    SumSplit(m[k := v], k);
    assert m[k := v] - {k} == m;
  }

  lemma SumIncrement(m: map<Id, nat>, k: Id)
    requires k in m
    ensures Sum(m[k := m[k] + 1]) == Sum(m) + 1
  {
    SumSplit(m, k);
    SumSplit(m[k := m[k] + 1], k);
    assert m[k := m[k] + 1] - {k} == m - {k};
  }

  lemma {:induction false} SumZeros(m: map<Id, nat>)
    requires forall k :: k in m ==> m[k] == 0
    ensures Sum(m) == 0
    decreases |m|
  {
    if m.Keys != {} {
      var c :| c in m.Keys && Sum(m) == m[c] + Sum(m - {c});
      SumZeros(m - {c});
    }
  }

  lemma {:induction false} SumBounded(m: map<Id, nat>, bound: nat)
    requires forall k :: k in m ==> m[k] <= bound
    ensures Sum(m) <= |m| * bound
    decreases |m|
  {
    if m.Keys != {} {
      var c :| c in m.Keys && Sum(m) == m[c] + Sum(m - {c});
      assert (m - {c}).Keys == m.Keys - {c};
      SumBounded(m - {c}, bound);
      assert |m| * bound == (|m| - 1) * bound + bound;
    }
  }
}
