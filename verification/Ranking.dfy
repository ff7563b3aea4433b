/**
 "The first n rows of this class by this key", as the dispatcher's ranked queries ask it
 (ROW_NUMBER() OVER (... ORDER BY ...) <= n).
 */
module Ranking {
  /** The sort key of one row; `id` is the row's own primary key, so keys never tie. */
  datatype Key = Key(time: int, alert: nat, id: nat)

  predicate Less(a: Key, b: Key) {
    || a.time < b.time
    || (a.time == b.time && a.alert < b.alert)
    || (a.time == b.time && a.alert == b.alert && a.id < b.id)
  }

  type Keyed = map<nat, Key>

  ghost predicate OwnIds(keys: Keyed) {
    forall x | x in keys :: keys[x].id == x
  }

  /** The candidates ranked strictly before x. */
  function Below(keys: Keyed, x: nat): set<nat>
    requires x in keys
  {
    set y | y in keys && Less(keys[y], keys[x])
  }

  ghost predicate Distinct(s: seq<nat>) {
    forall j, k | 0 <= j < k < |s| :: s[j] != s[k]
  }

  /** r lists, in key order, exactly the candidates of rank below n. */
  ghost predicate IsLowest(keys: Keyed, n: nat, r: seq<nat>) {
    && Distinct(r)
    && (forall x | x in r :: x in keys && |Below(keys, x)| < n)
    && (forall x | x in keys && |Below(keys, x)| < n :: x in r)
    && (forall j, k | 0 <= j < k < |r| :: r[j] in keys && r[k] in keys && Less(keys[r[j]], keys[r[k]]))
  }

  ghost predicate Smallest(keys: Keyed, todo: set<nat>, x: nat)
    requires todo <= keys.Keys
  {
    x in todo && forall y | y in todo :: y == x || Less(keys[x], keys[y])
  }

  lemma {:induction false} SmallestExists(keys: Keyed, todo: set<nat>) returns (x: nat)
    requires OwnIds(keys) && todo != {} && todo <= keys.Keys
    ensures Smallest(keys, todo, x)
    decreases todo
  {
    var p :| p in todo;
    if todo == {p} {
      x := p;
    } else {
      var q := SmallestExists(keys, todo - {p});
      x := if Less(keys[p], keys[q]) then p else q;
    }
  }

  function AsSet(s: seq<nat>): set<nat> { set x | x in s }

  lemma {:induction false} DistinctSize(s: seq<nat>)
    requires Distinct(s)
    ensures |AsSet(s)| == |s|
  {
    if s == [] {
      assert AsSet(s) == {};
    } else {
      var front := s[..|s| - 1];
      DistinctSize(front);
      assert AsSet(s) == AsSet(front) + {s[|s| - 1]};
      assert s[|s| - 1] !in AsSet(front);
    }
  }

  lemma SubsetSize(a: set<nat>, b: set<nat>)
    requires a <= b
    ensures |a| <= |b|
    ensures a != b ==> |a| < |b|
  {
    if a == b {
    } else {
      assert |b| == |a| + |b - a| by { assert b == a + (b - a); }
      assert b - a != {};
    }
  }

  /** r is the bottom part of the candidates and todo the rest. */
  ghost predicate Split(keys: Keyed, r: seq<nat>, todo: set<nat>) {
    && Distinct(r)
    && AsSet(r) !! todo
    && AsSet(r) + todo == keys.Keys
    && (forall x, y | x in AsSet(r) && y in todo :: Less(keys[x], keys[y]))
    && (forall j, k | 0 <= j < k < |r| :: r[j] in keys && r[k] in keys && Less(keys[r[j]], keys[r[k]]))
  }

  lemma SplitGrows(keys: Keyed, r: seq<nat>, todo: set<nat>, x: nat)
    requires Split(keys, r, todo) && x in todo
    requires forall y | y in todo :: y == x || Less(keys[x], keys[y])
    ensures Split(keys, r + [x], todo - {x})
  {
    assert AsSet(r + [x]) == AsSet(r) + {x} by {
      forall y | y in r ensures y in r + [x] {
        var k :| 0 <= k < |r| && r[k] == y;
        assert (r + [x])[k] == y;
      }
      assert (r + [x])[|r|] == x;
    }
    forall j, k | 0 <= j < k < |r + [x]|
      ensures (r + [x])[j] in keys && (r + [x])[k] in keys
      ensures Less(keys[(r + [x])[j]], keys[(r + [x])[k]]) && (r + [x])[j] != (r + [x])[k]
    {
      if k == |r| {
        assert r[j] in AsSet(r);
      }
    }
  }

  lemma SplitIsLowest(keys: Keyed, n: nat, r: seq<nat>, todo: set<nat>)
    requires OwnIds(keys) && Split(keys, r, todo)
    requires |r| == n || (|r| < n && todo == {})
    ensures IsLowest(keys, n, r)
  {
    DistinctSize(r);
    forall x | x in keys
      ensures x in AsSet(r) <==> |Below(keys, x)| < n
    {
      if x in AsSet(r) {
        SubsetSize(Below(keys, x), AsSet(r) - {x});
      } else {
        SubsetSize(AsSet(r), Below(keys, x));
      }
    }
    forall x | x in r ensures x in AsSet(r) {}
  }

  lemma LowestIsShort(keys: Keyed, n: nat, r: seq<nat>)
    requires IsLowest(keys, n, r)
    ensures |r| <= n
  {
    if r != [] {
      var last := r[|r| - 1];
      var front := r[..|r| - 1];
      DistinctSize(front);
      forall x | x in AsSet(front) ensures x in Below(keys, last) {
        var j :| 0 <= j < |front| && front[j] == x;
        assert r[j] == x;
      }
      SubsetSize(AsSet(front), Below(keys, last));
    }
  }

  lemma ServedAreAhead(keys: Keyed, n: nat, r: seq<nat>, x: nat)
    requires IsLowest(keys, n, r)
    requires x in keys && x !in r
    ensures AsSet(r) <= Below(keys, x)
  {
    forall y | y in AsSet(r) ensures y in Below(keys, x) {
      if !Less(keys[y], keys[x]) {
        SubsetSize(Below(keys, x), Below(keys, y));
      }
    }
  }

  /** A candidate that is not served has every one of the n served ones ahead of it. */
  lemma UnservedWaitsBehind(keys: Keyed, n: nat, r: seq<nat>, x: nat)
    requires OwnIds(keys) && IsLowest(keys, n, r)
    requires x in keys && x !in r
    ensures AsSet(r) <= Below(keys, x)
    ensures |Below(keys, x) - AsSet(r)| == |Below(keys, x)| - n
  {
    LowestIsShort(keys, n, r);
    DistinctSize(r);
    ServedAreAhead(keys, n, r, x);
    var ahead := Below(keys, x);
    assert |ahead| == |ahead - AsSet(r)| + |AsSet(r)| by { assert ahead == (ahead - AsSet(r)) + AsSet(r); }
    if |r| < n {
      NothingLeftOut(keys, n, r, ahead - AsSet(r), x);
    }
  }

  lemma NothingLeftOut(keys: Keyed, n: nat, r: seq<nat>, rest: set<nat>, x: nat)
    requires OwnIds(keys) && IsLowest(keys, n, r) && |AsSet(r)| < n
    requires x in keys && rest == Below(keys, x) - AsSet(r)
    ensures rest == {}
  {
    if rest != {} {
      var m := SmallestExists(keys, rest);
      SubsetSize(Below(keys, m), AsSet(r));
      assert false;
    }
  }

  /** Some candidate is always served. */
  lemma NonemptyServed(keys: Keyed, n: nat, r: seq<nat>)
    requires OwnIds(keys) && IsLowest(keys, n, r) && n > 0 && keys != map[]
    ensures r != []
  {
    assert exists x :: x in keys;
    var x := SmallestExists(keys, keys.Keys);
    assert Below(keys, x) == {};
  }

  /** Selection by repeated minimum: stops at n rows or when no candidate is left. */
  method TakeLowest(keys: Keyed, n: nat) returns (r: seq<nat>)
    requires OwnIds(keys)
    ensures IsLowest(keys, n, r) && |r| <= n
  {
    r := [];
    var todo := keys.Keys;
    while |r| < n && todo != {}
      invariant |r| <= n && Split(keys, r, todo)
      decreases todo
    {
      ghost var least := SmallestExists(keys, todo);
      var x :| x in todo && forall y | y in todo :: y == x || Less(keys[x], keys[y]);
      SplitGrows(keys, r, todo, x);
      r, todo := r + [x], todo - {x};
    }
    SplitIsLowest(keys, n, r, todo);
  }
}
