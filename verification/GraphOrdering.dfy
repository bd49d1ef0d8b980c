/** `sorted(...)` and `ORDER BY` over small integer keys: insertion sort, and
    the uniqueness of an arrangement whose keys strictly ascend. */
module GraphOrdering {
  import opened Prelude

  /** Keys compare lexicographically. */
  datatype Key = Key(first: nat, second: nat, third: nat)

  predicate Less(a: Key, b: Key) {
    || a.first < b.first
    || (a.first == b.first && a.second < b.second)
    || (a.first == b.first && a.second == b.second && a.third < b.third)
  }

  function Insert<T(!new)>(x: T, s: seq<T>, key: T -> Key): (r: seq<T>)
    ensures multiset(r) == multiset(s) + multiset{x}
    ensures |r| == |s| + 1
  {
    if s == [] || Less(key(x), key(s[0])) then [x] + s
    else
      assert s == [s[0]] + s[1..];
      [s[0]] + Insert(x, s[1..], key)
  }

  function SortBy<T(!new)>(s: seq<T>, key: T -> Key): (r: seq<T>)
    ensures multiset(r) == multiset(s)
    ensures |r| == |s|
  {
    if s == [] then []
    else
      assert s == s[..|s| - 1] + [s[|s| - 1]];
      Insert(s[|s| - 1], SortBy(s[..|s| - 1], key), key)
  }

  lemma SameMembers<T(!new)>(a: seq<T>, b: seq<T>)
    requires multiset(a) == multiset(b)
    ensures forall x :: x in a <==> x in b
    ensures Elements(a) == Elements(b)
  {
    forall x ensures x in a <==> x in b {
      assert x in a <==> x in multiset(a);
      assert x in b <==> x in multiset(b);
    }
  }

  /** Keys strictly ascend from left to right. */
  ghost predicate Ascending<T(!new)>(s: seq<T>, key: T -> Key) {
    forall i, j :: 0 <= i < j < |s| ==> Less(key(s[i]), key(s[j]))
  }

  ghost predicate KeysDistinct<T(!new)>(s: seq<T>, key: T -> Key) {
    forall i, j :: 0 <= i < j < |s| ==> key(s[i]) != key(s[j])
  }

  lemma {:induction false} InsertAscends<T(!new)>(x: T, s: seq<T>, key: T -> Key)
    requires Ascending(s, key)
    requires forall i :: 0 <= i < |s| ==> key(s[i]) != key(x)
    ensures Ascending(Insert(x, s, key), key)
  {
    if s == [] || Less(key(x), key(s[0])) {
    } else {
      var rest := Insert(x, s[1..], key);
      InsertAscends(x, s[1..], key);
      forall j | 0 <= j < |rest| ensures Less(key(s[0]), key(rest[j])) {
        assert rest[j] in multiset(rest);
        if rest[j] != x {
          assert rest[j] in s[1..];
          var k :| 0 <= k < |s[1..]| && s[1..][k] == rest[j];
          assert s[k + 1] == rest[j];
        }
      }
    }
  }

  lemma SortMembers<T(!new)>(s: seq<T>, key: T -> Key)
    ensures forall x :: x in SortBy(s, key) <==> x in s
  {
    SameMembers(SortBy(s, key), s);
  }

  lemma OtherKeys<T(!new)>(s: seq<T>, sorted: seq<T>, key: T -> Key)
    requires s != [] && KeysDistinct(s, key)
    requires forall y :: y in sorted ==> y in s[..|s| - 1]
    ensures forall i :: 0 <= i < |sorted| ==> key(sorted[i]) != key(s[|s| - 1])
  {
    forall i | 0 <= i < |sorted| ensures key(sorted[i]) != key(s[|s| - 1]) {
      var init := s[..|s| - 1];
      assert sorted[i] in sorted;
      var k :| 0 <= k < |init| && init[k] == sorted[i];
      assert s[k] == init[k];
    }
  }

  /** Sorting values with distinct keys arranges them in strictly ascending order. */
  lemma {:induction false} SortAscends<T(!new)>(s: seq<T>, key: T -> Key)
    requires KeysDistinct(s, key)
    ensures Ascending(SortBy(s, key), key)
  {
    if s != [] {
      var init := s[..|s| - 1];
      SortAscends(init, key);
      SortMembers(init, key);
      OtherKeys(s, SortBy(init, key), key);
      InsertAscends(s[|s| - 1], SortBy(init, key), key);
    }
  }

  /** There is only one strictly ascending arrangement of the same elements. */
  lemma {:induction false} AscendingIsUnique<T(!new)>(a: seq<T>, b: seq<T>, key: T -> Key)
    requires Ascending(a, key) && Ascending(b, key)
    requires forall x :: x in a <==> x in b
    ensures a == b
  {
    assert |b| > 0 ==> b[0] in b;
    if a != [] {
      assert a[0] in b && b[0] in a;
      var i :| 0 <= i < |b| && b[i] == a[0];
      var j :| 0 <= j < |a| && a[j] == b[0];
      assert a[0] == b[0];
      forall x ensures x in a[1..] <==> x in b[1..] {
        TailMembers(a, key, x);
        TailMembers(b, key, x);
      }
      AscendingIsUnique(a[1..], b[1..], key);
      assert a == [a[0]] + a[1..] && b == [b[0]] + b[1..];
    }
  }

  lemma TailMembers<T(!new)>(s: seq<T>, key: T -> Key, x: T)
    requires s != [] && Ascending(s, key)
    ensures x in s[1..] <==> x in s && x != s[0]
  {
    if x in s[1..] {
      var k :| 0 <= k < |s[1..]| && s[1..][k] == x;
      assert s[k + 1] == x;
    }
  }

  lemma SortOfAscending<T(!new)>(s: seq<T>, key: T -> Key)
    requires Ascending(s, key)
    ensures SortBy(s, key) == s
  {
    forall i, j | 0 <= i < j < |s| ensures key(s[i]) != key(s[j]) {
      assert Less(key(s[i]), key(s[j]));
    }
    SortAscends(s, key);
    SortMembers(s, key);
    AscendingIsUnique(SortBy(s, key), s, key);
  }

  // ------------------------------------------------------------- filtering

  function Filter<T(!new)>(s: seq<T>, p: T -> bool): (r: seq<T>)
    ensures forall x :: x in r <==> x in s && p(x)
  {
    if s == [] then []
    else
      var init := Filter(s[..|s| - 1], p);
      assert s == s[..|s| - 1] + [s[|s| - 1]];
      if p(s[|s| - 1]) then init + [s[|s| - 1]] else init
  }

  lemma {:induction false} FilterAscends<T(!new)>(s: seq<T>, p: T -> bool, key: T -> Key)
    requires Ascending(s, key)
    ensures Ascending(Filter(s, p), key)
  {
    if s != [] {
      var init, last := s[..|s| - 1], s[|s| - 1];
      FilterAscends(init, p, key);
      forall x | x in Filter(init, p) ensures Less(key(x), key(last)) {
        var k :| 0 <= k < |init| && init[k] == x;
        assert s[k] == x;
      }
    }
  }

  lemma AscendingByCoarserKey<T(!new)>(s: seq<T>, fine: T -> Key, coarse: T -> Key)
    requires Ascending(s, fine) && KeysDistinct(s, coarse)
    requires forall x, y :: x in s && y in s && Less(fine(x), fine(y)) ==>
        Less(coarse(x), coarse(y)) || coarse(x) == coarse(y)
    ensures Ascending(s, coarse)
  {
    forall i, j | 0 <= i < j < |s| ensures Less(coarse(s[i]), coarse(s[j])) {
      assert Less(fine(s[i]), fine(s[j]));
    }
  }

  /** The distinct values of `s` in ascending order. */
  function DistinctSorted(s: seq<nat>): (r: seq<nat>)
    ensures forall x :: x in r <==> x in s
    ensures forall i, j :: 0 <= i < j < |r| ==> r[i] < r[j]
  {
    if s == [] then []
    else
      assert s == s[..|s| - 1] + [s[|s| - 1]];
      var init := DistinctSorted(s[..|s| - 1]);
      InsertNew(s[|s| - 1], init)
  }

  function InsertNew(x: nat, s: seq<nat>): (r: seq<nat>)
    requires forall i, j :: 0 <= i < j < |s| ==> s[i] < s[j]
    ensures forall y :: y in r <==> y in s || y == x
    ensures forall i, j :: 0 <= i < j < |r| ==> r[i] < r[j]
  {
    if s == [] || x < s[0] then [x] + s
    else if x == s[0] then s
    else
      var rest := InsertNew(x, s[1..]);
      assert s == [s[0]] + s[1..];
      assert forall j :: 0 <= j < |rest| ==> rest[j] in rest;
      [s[0]] + rest
  }

  function NatKey(x: nat): Key {
    Key(x, 0, 0)
  }

  /** Two ascending number sequences with the same members are equal. */
  lemma SameNumbers(a: seq<nat>, b: seq<nat>)
    requires forall i, j :: 0 <= i < j < |a| ==> a[i] < a[j]
    requires forall i, j :: 0 <= i < j < |b| ==> b[i] < b[j]
    requires forall x :: x in a <==> x in b
    ensures a == b
  {
    AscendingIsUnique(a, b, NatKey);
  }
}
