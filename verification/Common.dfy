/**
  Small vocabulary shared by every model: options, opaque identifiers, and the order-preserving
  selection `Keep`, with which first-in-first-out claims are stated and proved.
 */
module Common {

  datatype Option<+T> = None | Some(value: T)

  /** Identifiers are opaque: tickets, visitors, seats, requests, tokens. Only equality is used. */
  type Id = nat

  ghost predicate NoDup<T>(s: seq<T>) {
    forall i, j :: 0 <= i < j < |s| ==> s[i] != s[j]
  }

  function Elems<T>(s: seq<T>): set<T> {
    set x | x in s
  }

  /** The members of `s` that lie in `wanted`, in their order in `s`. */
  function Keep<T(==)>(s: seq<T>, wanted: set<T>): seq<T> {
    if s == [] then []
    else if s[0] in wanted then [s[0]] + Keep(s[1..], wanted)
    else Keep(s[1..], wanted)
  }

  lemma {:induction false} KeepElems<T>(s: seq<T>, wanted: set<T>)
    ensures forall x :: x in Keep(s, wanted) <==> x in s && x in wanted
  {
    if s != [] {
      KeepElems(s[1..], wanted);
      assert s == [s[0]] + s[1..];
    }
  }

  lemma {:induction false} KeepNoDup<T>(s: seq<T>, wanted: set<T>)
    requires NoDup(s)
    ensures NoDup(Keep(s, wanted))
  {
    if s != [] {
      KeepNoDup(s[1..], wanted);
      KeepElems(s[1..], wanted);
    }
  }

  lemma {:induction false} KeepKeep<T>(s: seq<T>, outer: set<T>, inner: set<T>)
    requires inner <= outer
    ensures Keep(Keep(s, outer), inner) == Keep(s, inner)
  {
    if s != [] {
      KeepKeep(s[1..], outer, inner);
      if s[0] in outer {
        assert Keep(s, outer)[1..] == Keep(s[1..], outer);
      }
    }
  }

  lemma {:induction false} KeepConcat<T>(a: seq<T>, b: seq<T>, wanted: set<T>)
    ensures Keep(a + b, wanted) == Keep(a, wanted) + Keep(b, wanted)
  {
    if a == [] {
      assert a + b == b;
    } else {
      KeepConcat(a[1..], b, wanted);
      assert (a + b)[1..] == a[1..] + b;
    }
  }

  lemma {:induction false} KeepAll<T>(s: seq<T>, wanted: set<T>)
    requires forall x :: x in s ==> x in wanted
    ensures Keep(s, wanted) == s
  {
    if s != [] {
      KeepAll(s[1..], wanted);
    }
  }

  lemma {:induction false} KeepNone<T>(s: seq<T>, wanted: set<T>)
    requires forall x :: x in s ==> x !in wanted
    ensures Keep(s, wanted) == []
  {
    if s != [] {
      KeepNone(s[1..], wanted);
    }
  }

  /** Selection only depends on membership of the elements that occur. */
  lemma {:induction false} KeepSame<T>(s: seq<T>, a: set<T>, b: set<T>)
    requires forall x :: x in s ==> (x in a <==> x in b)
    ensures Keep(s, a) == Keep(s, b)
  {
    if s != [] {
      KeepSame(s[1..], a, b);
    }
  }

  /** In a duplicate-free sequence, whatever `Keep` puts earlier also stands earlier in the original. */
  lemma {:induction false} KeepOrder<T>(s: seq<T>, wanted: set<T>, i: nat, j: nat)
    requires NoDup(s) && i < j < |s|
    requires s[i] in wanted && s[j] in wanted
    ensures exists a, b :: 0 <= a < b < |Keep(s, wanted)| && Keep(s, wanted)[a] == s[i] && Keep(s, wanted)[b] == s[j]
  {
    var k := Keep(s[1..], wanted);
    if i == 0 {
      KeepElems(s[1..], wanted);
      assert s[1..][j - 1] == s[j];
      assert s[j] in k;
      var b :| 0 <= b < |k| && k[b] == s[j];
      assert Keep(s, wanted)[0] == s[i] && Keep(s, wanted)[b + 1] == s[j];
    } else {
      KeepOrder(s[1..], wanted, i - 1, j - 1);
      var a, b :| 0 <= a < b < |k| && k[a] == s[i] && k[b] == s[j];
      if s[0] in wanted {
        assert Keep(s, wanted)[a + 1] == s[i] && Keep(s, wanted)[b + 1] == s[j];
      } else {
        assert Keep(s, wanted) == k;
      }
    }
  }

  /** If the selection splits into `front + back`, everything in `front` stands before everything in `back`. */
  lemma KeepSplitOrder<T>(s: seq<T>, wanted: set<T>, front: seq<T>, back: seq<T>, i: nat, j: nat)
    requires NoDup(s) && i < |s| && j < |s|
    requires Keep(s, wanted) == front + back
    requires s[i] in front && s[j] in back
    ensures i < j
  {
    var k := Keep(s, wanted);
    KeepNoDup(s, wanted);
    KeepElems(s, wanted);
    var p :| 0 <= p < |front| && front[p] == s[i];
    var q :| 0 <= q < |back| && back[q] == s[j];
    assert k[p] == s[i] && k[|front| + q] == s[j];
    if j < i {
      KeepOrder(s, wanted, j, i);
    }
  }

  // ---------------------------------------------------------------- days

  const DAY_MS := 86_400_000

  /** The UTC calendar day of a timestamp. */
  function UtcDay(now: int): int {
    now / DAY_MS
  }

  /** Days before the year 10000, the last ones whose name has four digits for the year. */
  const DAYS_WITH_NAMES := 2_932_897

  predicate ValidDayName(day: int) {
    0 <= day < DAYS_WITH_NAMES
  }

  /** The integers up to which JavaScript counts by one. */
  const MAX_SAFE := 9_007_199_254_740_991

  predicate Within(x: int, low: int, high: int) {
    low <= x <= high
  }

  // ---------------------------------------------------------------- removal

  /** `s` without the first occurrence of `x`. */
  function Remove<T(==)>(s: seq<T>, x: T): seq<T> {
    if s == [] then []
    else if s[0] == x then s[1..]
    else [s[0]] + Remove(s[1..], x)
  }

  lemma {:induction false} RemoveElems<T>(s: seq<T>, x: T)
    requires NoDup(s)
    ensures NoDup(Remove(s, x))
    ensures forall y :: y in Remove(s, x) <==> y in s && y != x
    ensures |Remove(s, x)| == |s| - (if x in s then 1 else 0)
  {
    if s != [] {
      assert forall y :: y in s <==> y == s[0] || y in s[1..];
      assert s[0] !in s[1..];
      if s[0] != x {
        RemoveElems(s[1..], x);
      }
    }
  }

  // ---------------------------------------------------------------- sizes

  lemma {:induction false} SubsetSize<T>(a: set<T>, b: set<T>)
    requires a <= b
    ensures |a| <= |b|
  {
    if a != {} {
      var x :| x in a;
      SubsetSize(a - {x}, b - {x});
    }
  }

  lemma {:induction false} ElemsBound<T>(s: seq<T>)
    ensures |Elems(s)| <= |s|
  {
    if s == [] {
      assert Elems(s) == {};
    } else {
      ElemsBound(s[1..]);
      assert Elems(s) == {s[0]} + Elems(s[1..]);
    }
  }

  lemma {:induction false} ElemsSize<T>(s: seq<T>)
    requires NoDup(s)
    ensures |Elems(s)| == |s|
  {
    if s == [] {
      assert Elems(s) == {};
    } else {
      ElemsSize(s[1..]);
      assert Elems(s) == {s[0]} + Elems(s[1..]);
      assert s[0] !in Elems(s[1..]);
    }
  }

  lemma PutSize<K, V>(m: map<K, V>, k: K, v: V)
    ensures |m[k := v]| == |m| + (if k in m then 0 else 1)
  {
    if k in m {
      assert m[k := v].Keys == m.Keys;
    } else {
      assert m[k := v].Keys == m.Keys + {k};
    }
    assert |m[k := v].Keys| == |m.Keys| + (if k in m then 0 else 1);
  }

  lemma DropSize<K, V>(m: map<K, V>, k: K)
    requires k in m
    ensures |m - {k}| == |m| - 1
  {
    assert (m - {k}).Keys == m.Keys - {k};
    assert |(m - {k}).Keys| == |m.Keys| - 1;
  }
}
