/** Small shared vocabulary: an option type and the list comprehension that
    the modelled Python code uses to pick entries of a table. */
module Prelude {

  datatype Option<+T> = None | Some(value: T)

  predicate Distinct<T(==)>(s: seq<T>) {
    forall i, j :: 0 <= i < j < |s| ==> s[i] != s[j]
  }

  function Elements<T(==)>(s: seq<T>): set<T> {
    set x | x in s
  }

  /** The positions `[i for i, x in enumerate(s) if p(x)]`, in order. */
  function Positions<T>(s: seq<T>, p: T -> bool): (r: seq<nat>)
    ensures forall k :: 0 <= k < |r| ==> r[k] < |s| && p(s[r[k]])
    ensures forall i :: 0 <= i < |s| && p(s[i]) ==> i in r
    ensures forall a, b :: 0 <= a < b < |r| ==> r[a] < r[b]
  {
    if s == [] then []
    else
      var init := Positions(s[..|s| - 1], p);
      if p(s[|s| - 1]) then init + [|s| - 1] else init
  }

  lemma {:induction false} OnlyPosition<T>(s: seq<T>, p: T -> bool, i: nat)
    requires i < |s| && p(s[i])
    requires forall j :: 0 <= j < |s| && p(s[j]) ==> j == i
    ensures Positions(s, p) == [i]
  {
    var init := s[..|s| - 1];
    if i == |s| - 1 {
      NoPosition(init, p);
    } else {
      OnlyPosition(init, p, i);
    }
  }

  lemma NoPosition<T>(s: seq<T>, p: T -> bool)
    requires forall j :: 0 <= j < |s| ==> !p(s[j])
    ensures Positions(s, p) == []
  {
  }

  /** A single position is the only one. */
  lemma SolePosition<T>(s: seq<T>, p: T -> bool)
    requires |Positions(s, p)| == 1
    ensures var i := Positions(s, p)[0]; i < |s| && p(s[i]) && forall j :: 0 <= j < |s| && p(s[j]) ==> j == i
  {
    var r := Positions(s, p);
    forall j | 0 <= j < |s| && p(s[j]) ensures j == r[0] {
      assert j in r;
    }
  }

  // ------------------------------------------------------------ cardinality

  lemma {:induction false} DistinctCardinality<T>(s: seq<T>)
    requires Distinct(s)
    ensures |Elements(s)| == |s|
  {
    if s != [] {
      var init, last := s[..|s| - 1], s[|s| - 1];
      DistinctCardinality(init);
      assert Elements(s) == Elements(init) + {last};
      assert last !in Elements(init);
    }
  }

  lemma {:induction false} AtMostLength<T>(s: seq<T>)
    ensures |Elements(s)| <= |s|
  {
    if s != [] {
      AtMostLength(s[..|s| - 1]);
      assert Elements(s) == Elements(s[..|s| - 1]) + {s[|s| - 1]};
    }
  }

  /** As many elements as positions means that no element occurs twice. */
  lemma {:induction false} FullCardinality<T>(s: seq<T>)
    requires |Elements(s)| == |s|
    ensures Distinct(s)
  {
    if s != [] {
      var init, last := s[..|s| - 1], s[|s| - 1];
      AtMostLength(init);
      assert Elements(s) == Elements(init) + {last};
      assert last in init ==> Elements(s) == Elements(init);
      FullCardinality(init);
      assert forall i :: 0 <= i < |init| ==> s[i] == init[i] && init[i] in init;
    }
  }

  /** Distinctness survives rearrangement. */
  lemma DistinctRearranged<T>(a: seq<T>, b: seq<T>)
    requires Distinct(a) && |a| == |b| && Elements(a) == Elements(b)
    ensures Distinct(b)
  {
    DistinctCardinality(a);
    FullCardinality(b);
  }

  /** The set {1, ..., n}. */
  ghost function UpTo(n: nat): (r: set<int>)
    ensures forall c :: c in r <==> 1 <= c <= n
    ensures |r| == n
  {
    if n == 0 then {} else UpTo(n - 1) + {n}
  }

  /** A subset that is as large as the whole is the whole. */
  lemma SubsetOfSameSize<T>(a: set<T>, b: set<T>)
    requires a <= b && |a| == |b|
    ensures a == b
  {
    assert b == a + (b - a);
    assert |b| == |a| + |b - a|;
  }

  /** An injective map has as many values as keys. */
  lemma {:induction false} InjectiveCardinality<A, B>(m: map<A, B>)
    requires forall x, y :: x in m && y in m && m[x] == m[y] ==> x == y
    ensures |m.Keys| == |m.Values|
    decreases |m|
  {
    if m != map[] {
      var x :| x in m;
      var rest := m - {x};
      InjectiveCardinality(rest);
      assert m.Keys == rest.Keys + {x};
      assert m.Values == rest.Values + {m[x]};
      assert m[x] !in rest.Values;
    }
  }
}
