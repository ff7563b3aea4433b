/** Python's sorted(s, key=...): ascending and stable. */
module Sorting {
  ghost predicate Ascending<T(!new)>(s: seq<T>, key: T -> int) {
    forall j, k | 0 <= j < k < |s| :: key(s[j]) <= key(s[k])
  }

  function Insert<T>(s: seq<T>, x: T, key: T -> int): seq<T> {
    if s != [] && key(x) < key(s[|s| - 1]) then Insert(s[..|s| - 1], x, key) + [s[|s| - 1]] else s + [x]
  }

  function SortBy<T>(s: seq<T>, key: T -> int): seq<T> {
    if s == [] then [] else Insert(SortBy(s[..|s| - 1], key), s[|s| - 1], key)
  }

  lemma AppendSorted<T(!new)>(s: seq<T>, x: T, key: T -> int)
    requires Ascending(s, key) && forall y | y in s :: key(y) <= key(x)
    ensures Ascending(s + [x], key)
  {
    forall j, k | 0 <= j < k < |s + [x]| ensures key((s + [x])[j]) <= key((s + [x])[k]) {
      assert s[j] in s;
    }
  }

  lemma {:induction false} InsertContents<T(!new)>(s: seq<T>, x: T, key: T -> int)
    ensures multiset(Insert(s, x, key)) == multiset(s) + multiset{x}
  {
    if s != [] && key(x) < key(s[|s| - 1]) {
      InsertContents(s[..|s| - 1], x, key);
      assert s == s[..|s| - 1] + [s[|s| - 1]];
    }
  }

  lemma InsertMember<T(!new)>(s: seq<T>, x: T, key: T -> int, y: T)
    ensures y in Insert(s, x, key) <==> y in s || y == x
  {
    InsertContents(s, x, key);
    assert y in multiset(Insert(s, x, key)) <==> y in multiset(s) + multiset{x};
  }

  lemma {:induction false} InsertSorted<T(!new)>(s: seq<T>, x: T, key: T -> int)
    requires Ascending(s, key)
    ensures Ascending(Insert(s, x, key), key)
  {
    if s != [] && key(x) < key(s[|s| - 1]) {
      var front, last := s[..|s| - 1], s[|s| - 1];
      InsertSorted(front, x, key);
      forall y | y in Insert(front, x, key) ensures key(y) <= key(last) {
        InsertMember(front, x, key, y);
      }
      AppendSorted(Insert(front, x, key), last, key);
    } else {
      AppendSorted(s, x, key);
    }
  }

  lemma {:induction false} SortedFacts<T(!new)>(s: seq<T>, key: T -> int)
    ensures Ascending(SortBy(s, key), key)
    ensures multiset(SortBy(s, key)) == multiset(s)
  {
    if s == [] {
    } else {
      SortedFacts(s[..|s| - 1], key);
      InsertSorted(SortBy(s[..|s| - 1], key), s[|s| - 1], key);
      InsertContents(SortBy(s[..|s| - 1], key), s[|s| - 1], key);
      assert s == s[..|s| - 1] + [s[|s| - 1]];
    }
  }

  lemma SortedMembers<T(!new)>(s: seq<T>, key: T -> int)
    ensures |SortBy(s, key)| == |s|
    ensures forall y :: y in SortBy(s, key) <==> y in s
  {
    SortedFacts(s, key);
    assert |multiset(SortBy(s, key))| == |multiset(s)|;
    forall y ensures y in SortBy(s, key) <==> y in s {
      assert y in multiset(SortBy(s, key)) <==> y in multiset(s);
    }
  }

  /** Sorting leaves what is in order as it is. */
  lemma {:induction false} SortedStays<T(!new)>(s: seq<T>, key: T -> int)
    requires Ascending(s, key)
    ensures SortBy(s, key) == s
  {
    if s != [] {
      SortedStays(s[..|s| - 1], key);
      assert s == s[..|s| - 1] + [s[|s| - 1]];
    }
  }

  /** The elements of one key, in the order in which they stand. */
  function Having<T>(s: seq<T>, key: T -> int, v: int): seq<T> {
    if s == [] then []
    else
      var last := s[|s| - 1];
      Having(s[..|s| - 1], key, v) + if key(last) == v then [last] else []
  }

  lemma HavingAppend<T>(s: seq<T>, x: T, key: T -> int, v: int)
    ensures Having(s + [x], key, v) == Having(s, key, v) + if key(x) == v then [x] else []
  {
    assert (s + [x])[..|s|] == s;
  }

  lemma {:induction false} InsertStable<T>(s: seq<T>, x: T, key: T -> int, v: int)
    ensures Having(Insert(s, x, key), key, v) == Having(s, key, v) + if key(x) == v then [x] else []
  {
    if s != [] && key(x) < key(s[|s| - 1]) {
      InsertStable(s[..|s| - 1], x, key, v);
      HavingAppend(Insert(s[..|s| - 1], x, key), s[|s| - 1], key, v);
    } else {
      HavingAppend(s, x, key, v);
    }
  }

  /** Elements of equal key keep their order. */
  lemma {:induction false} SortStable<T>(s: seq<T>, key: T -> int, v: int)
    ensures Having(SortBy(s, key), key, v) == Having(s, key, v)
  {
    if s != [] {
      SortStable(s[..|s| - 1], key, v);
      InsertStable(SortBy(s[..|s| - 1], key), s[|s| - 1], key, v);
    }
  }

  lemma {:induction false} HavingMember<T(!new)>(s: seq<T>, key: T -> int, v: int, j: nat) returns (i: nat)
    requires j < |s| && key(s[j]) == v
    ensures i < |Having(s, key, v)| && Having(s, key, v)[i] == s[j]
  {
    if j == |s| - 1 {
      i := |Having(s[..|s| - 1], key, v)|;
    } else {
      i := HavingMember(s[..|s| - 1], key, v, j);
    }
  }

  lemma {:induction false} HavingKeepsOrder<T(!new)>(s: seq<T>, key: T -> int, v: int, j: nat, k: nat) returns (i: nat, l: nat)
    requires j < k < |s| && key(s[j]) == v == key(s[k])
    ensures i < l < |Having(s, key, v)| && Having(s, key, v)[i] == s[j] && Having(s, key, v)[l] == s[k]
  {
    var front := s[..|s| - 1];
    if k == |s| - 1 {
      i := HavingMember(front, key, v, j);
      l := |Having(front, key, v)|;
    } else {
      i, l := HavingKeepsOrder(front, key, v, j, k);
    }
  }

  lemma {:induction false} HavingFrom<T(!new)>(s: seq<T>, key: T -> int, v: int, i: nat) returns (j: nat)
    requires i < |Having(s, key, v)|
    ensures j < |s| && s[j] == Having(s, key, v)[i]
  {
    var front := s[..|s| - 1];
    if i == |Having(front, key, v)| {
      j := |s| - 1;
    } else {
      j := HavingFrom(front, key, v, i);
    }
  }

  lemma {:induction false} HavingOrderFrom<T(!new)>(s: seq<T>, key: T -> int, v: int, i: nat, l: nat) returns (j: nat, k: nat)
    requires i < l < |Having(s, key, v)|
    ensures j < k < |s| && s[j] == Having(s, key, v)[i] && s[k] == Having(s, key, v)[l]
  {
    var front := s[..|s| - 1];
    if l == |Having(front, key, v)| {
      j := HavingFrom(front, key, v, i);
      k := |s| - 1;
    } else {
      j, k := HavingOrderFrom(front, key, v, i, l);
    }
  }

  /** Of two elements of one key, the one that stood first still does. */
  lemma StableOrder<T(!new)>(s: seq<T>, key: T -> int, i: nat, l: nat) returns (j: nat, k: nat)
    requires i < l < |SortBy(s, key)| && key(SortBy(s, key)[i]) == key(SortBy(s, key)[l])
    ensures j < k < |s| && s[j] == SortBy(s, key)[i] && s[k] == SortBy(s, key)[l]
  {
    var sorted, v := SortBy(s, key), key(SortBy(s, key)[i]);
    var i', l' := HavingKeepsOrder(sorted, key, v, i, l);
    SortStable(s, key, v);
    j, k := HavingOrderFrom(s, key, v, i', l');
  }
}
