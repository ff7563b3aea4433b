/**
 Every alert gets its delivery intents: in one transaction, for its whole audience at that moment,
 never again afterwards, and after a bounded number of completed passes however many newer alerts arrive.
 */
module AlertFairness {
  import opened Options
  import opened Ranking
  import opened AlertTables
  import opened AlertProtocol
  import opened AlertSafety

  // ---- one transaction, one audience ----

  function IntentIds(t: Tables, a: nat): set<nat> {
    set i | i in t.intents && t.intents[i].alert == a
  }

  function TargetsOf(t: Tables, a: nat): set<Option<Target>> {
    set i | i in IntentIds(t, a) :: t.intents[i].target
  }

  /** One intent per member of the audience, or the single no-audience intent. */
  function Whole(audience: set<Target>): set<Option<Target>> {
    if audience == {} then {None} else Somes(audience)
  }

  function Somes(audience: set<Target>): set<Option<Target>> { set x | x in audience :: Some(x) }

  lemma FanoutToNobody(t: Tables, a: nat)
    requires IdsOk(t) && !HasIntents(t, a)
    ensures IntentIds(Fanout(t, a, []), a) == {t.nextIntent}
    ensures TargetsOf(Fanout(t, a, []), a) == {None}
  {
    var t' := Fanout(t, a, []);
    assert t'.intents[t.nextIntent].alert == a;
    assert IntentIds(t', a) == {t.nextIntent};
  }

  lemma FanoutIds(t: Tables, a: nat, targets: seq<Target>)
    requires IdsOk(t) && !HasIntents(t, a) && targets != []
    ensures IntentIds(Fanout(t, a, targets), a) == Span(t.nextIntent, |targets|)
  {
  }

  lemma FanoutToMany(t: Tables, a: nat, targets: seq<Target>)
    requires IdsOk(t) && !HasIntents(t, a) && targets != []
    ensures IntentIds(Fanout(t, a, targets), a) == Span(t.nextIntent, |targets|)
    ensures TargetsOf(Fanout(t, a, targets), a) == Somes(Members(targets))
  {
    var t' := Fanout(t, a, targets);
    FanoutIds(t, a, targets);
    forall x | x in targets ensures Some(x) in TargetsOf(t', a) {
      var k :| 0 <= k < |targets| && targets[k] == x;
      assert t.nextIntent + k in Span(t.nextIntent, |targets|);
      assert t'.intents[t.nextIntent + k].target == Some(x);
    }
    forall i | i in Span(t.nextIntent, |targets|) ensures t'.intents[i].target in Somes(Members(targets)) {
      assert targets[i - t.nextIntent] in Members(targets);
    }
  }

  lemma FanoutIsWhole(t: Tables, a: nat, targets: seq<Target>)
    requires IdsOk(t) && a in t.alerts && !HasIntents(t, a)
    requires Lists(targets, Audience(t.directory, t.alerts[a]))
    ensures HasIntents(Fanout(t, a, targets), a)
    ensures TargetsOf(Fanout(t, a, targets), a) == Whole(Audience(t.directory, t.alerts[a]))
    ensures |IntentIds(Fanout(t, a, targets), a)| == |TargetsOf(Fanout(t, a, targets), a)|
  {
    HasIds(Fanout(t, a, targets), a);
    if targets == [] {
      FanoutToNobody(t, a);
    } else {
      FanoutToMany(t, a, targets);
      assert targets[0] in targets;
      assert t.nextIntent in Span(t.nextIntent, |targets|);
      SpanSize(t.nextIntent, |targets|);
      ListSize(targets);
      SomeSize(Members(targets));
    }
  }

  lemma {:induction false} SpanSize(lo: nat, n: nat)
    ensures |Span(lo, n)| == n
  {
    if n != 0 {
      SpanSize(lo, n - 1);
    }
  }

  lemma {:induction false} ListSize(s: seq<Target>)
    requires AllDifferent(s)
    ensures |Members(s)| == |s|
  {
    if s == [] {
      assert Members(s) == {};
    } else {
      var front, last := s[..|s| - 1], s[|s| - 1];
      ListSize(front);
      assert Members(s) == Members(front) + {last};
    }
  }

  lemma {:induction false} SomeSize(s: set<Target>)
    ensures |Somes(s)| == |s|
    decreases s
  {
    if s == {} {
      assert Somes(s) == {};
    } else {
      var y :| y in s;
      SomeSize(s - {y});
      assert Somes(s) == Somes(s - {y}) + {Some(y)};
    }
  }

  lemma {:induction false} IntentsFrozen(s: State, ls: seq<Label>, a: nat)
    requires Inv(s) && Runs(s, ls) && HasIntents(s.db, a)
    ensures IntentIds(After(s, ls).db, a) == IntentIds(s.db, a)
    ensures TargetsOf(After(s, ls).db, a) == TargetsOf(s.db, a)
    decreases |ls|
  {
    if ls == [] {
    } else {
      var s' := Step(s, ls[0]);
      StepKeeps(s, ls[0]);
      OneStepFrozen(s, ls[0], a);
      IntentsFrozen(s', ls[1..], a);
    }
  }

  lemma OneStepFrozen(s: State, l: Label, a: nat)
    requires Inv(s) && Enabled(s, l)
    requires HasIntents(s.db, a) || !l.Materialize? || s.proc.batch[0] != a
    ensures IntentIds(Step(s, l).db, a) == IntentIds(s.db, a)
    ensures TargetsOf(Step(s, l).db, a) == TargetsOf(s.db, a)
    ensures HasIntents(Step(s, l).db, a) <==> HasIntents(s.db, a)
  {
    var s' := Step(s, l);
    forall i | i in s.db.intents ensures i in s'.db.intents && SameIdentity(s.db.intents[i], s'.db.intents[i]) {
      IdentitiesKept(s, l, i);
    }
    forall i | i in s'.db.intents && i !in s.db.intents ensures s'.db.intents[i].alert != a {
      FocusKnown(s, l);
      OnlyMaterializeCreates(s, l, i);
      assert !HasIntents(s.db, s.proc.batch[0]);
    }
    assert IntentIds(s'.db, a) == IntentIds(s.db, a);
    HasIds(s.db, a);
    HasIds(s'.db, a);
  }

  lemma HasIds(t: Tables, a: nat)
    ensures HasIntents(t, a) <==> IntentIds(t, a) != {}
  {
    if HasIntents(t, a) {
      var i :| i in t.intents && t.intents[i].alert == a;
      assert i in IntentIds(t, a);
    } else if i :| i in IntentIds(t, a) {
      assert false;
    }
  }

  /**
   An alert's intents are created by one label k of the run: the audience of that moment, complete,
   one intent per target, and nothing added or removed by the rest of the run.
   */
  lemma {:induction false} MaterializedAtOnce(s: State, ls: seq<Label>, a: nat) returns (k: nat)
    requires Inv(s) && Runs(s, ls) && a in s.db.alerts
    requires !HasIntents(s.db, a) && HasIntents(After(s, ls).db, a)
    ensures k < |ls| && ls[k].Materialize? && Runs(s, ls[..k])
    ensures var p := After(s, ls[..k]);
      && a in p.db.alerts && !HasIntents(p.db, a)
      && TargetsOf(After(s, ls).db, a) == Whole(Audience(p.db.directory, p.db.alerts[a]))
      && |IntentIds(After(s, ls).db, a)| == |TargetsOf(After(s, ls).db, a)|
    decreases |ls|
  {
    assert ls != [];
    var l, s' := ls[0], Step(s, ls[0]);
    StepKeeps(s, l);
    if HasIntents(s'.db, a) {
      k := 0;
      if !(l.Materialize? && s.proc.batch[0] == a) {
        OneStepFrozen(s, l, a);
      }
      assert ls[..0] == [] && After(s, []) == s;
      FanoutIsWhole(s.db, a, l.targets);
      IntentsFrozen(s', ls[1..], a);
    } else {
      GrowsStep(s, l);
      var j := MaterializedAtOnce(s', ls[1..], a);
      k := j + 1;
      assert ls[..k][1..] == ls[1..][..j];
    }
  }

  // ---- how long it takes ----

  function Class(t: Tables, a: nat): bool
    requires a in t.alerts
  {
    t.alerts[a].Critical()
  }

  /** Alerts of the same severity class, older than a and still without intents. */
  function Older(t: Tables, a: nat): set<nat>
    requires a in t.alerts && !HasIntents(t, a)
  {
    Below(UnmaterializedKeys(t, Class(t, a)), a)
  }

  predicate Waiting(t: Tables, a: nat) { a in t.alerts && !HasIntents(t, a) }

  lemma OlderMeans(t: Tables, a: nat, b: nat)
    requires Waiting(t, a)
    ensures b in Older(t, a) <==> Waiting(t, b) && Class(t, b) == Class(t, a) && b < a
  {
  }

  /** What a running batch still owes a waiting alert. */
  predicate BatchFair(s: State, a: nat)
    requires Waiting(s.db, a)
  {
    s.proc.Materializing? ==>
      var slots, batch := SlotsFor(Class(s.db, a)), s.proc.batch;
      && |Older(s.db, a) * AsSet(batch)| <= slots
      && (a in batch ==> |Older(s.db, a)| < slots)
  }

  /** An upper bound on the completed passes a still has to wait for. */
  function Need(s: State, a: nat): nat
    requires Waiting(s.db, a)
  {
    var slots := SlotsFor(Class(s.db, a));
    if s.proc.Materializing? then
      if a in s.proc.batch then 1 else |Older(s.db, a) - AsSet(s.proc.batch)| / slots + 2
    else |Older(s.db, a)| / slots + 1
  }

  lemma OlderShrinks(s: State, l: Label, a: nat)
    requires Inv(s) && Enabled(s, l) && Waiting(s.db, a) && Waiting(Step(s, l).db, a)
    ensures Older(Step(s, l).db, a) <= Older(s.db, a)
    ensures Class(Step(s, l).db, a) == Class(s.db, a)
    ensures l.Materialize? ==> s.proc.batch[0] !in Older(Step(s, l).db, a)
  {
    var t, t' := s.db, Step(s, l).db;
    GrowsStep(s, l);
    forall b | b in Older(t', a) ensures b in Older(t, a) && (l.Materialize? ==> b != s.proc.batch[0]) {
      OlderMeans(t', a, b);
      OlderMeans(t, a, b);
      if l.Materialize? && b == s.proc.batch[0] {
        FanoutIsWhole(t, b, l.targets);
      }
      if HasIntents(t, b) {
        OneStepFrozen(s, l, b);
      }
    }
  }

  lemma Divide(n: nat, m: nat, slots: nat)
    requires slots == CRITICAL_SLOTS || slots == NORMAL_SLOTS
    ensures n <= m ==> n / slots <= m / slots
    ensures n <= m + slots ==> n / slots <= m / slots + 1
    ensures n < slots ==> n / slots == 0
    ensures n >= slots ==> (n - slots) / slots == n / slots - 1
  {
  }

  lemma Parts(a: set<nat>, b: set<nat>)
    ensures |a| == |a - b| + |a * b|
  {
    assert a == (a - b) + (a * b);
  }

  lemma ClassServes(keys: Keyed, slots: nat, mine: seq<nat>, other: set<nat>, a: nat)
    requires OwnIds(keys) && IsLowest(keys, slots, mine) && other !! keys.Keys && a in keys
    ensures |Below(keys, a) * (AsSet(mine) + other)| <= slots
    ensures a in mine ==> |Below(keys, a)| < slots
    ensures a !in mine ==> |Below(keys, a) - (AsSet(mine) + other)| == |Below(keys, a)| - slots
  {
    LowestIsShort(keys, slots, mine);
    DistinctSize(mine);
    SubsetSize(Below(keys, a) * (AsSet(mine) + other), AsSet(mine));
    if a !in mine {
      UnservedWaitsBehind(keys, slots, mine, a);
      assert Below(keys, a) - (AsSet(mine) + other) == Below(keys, a) - AsSet(mine);
    }
  }

  lemma OtherClass(t: Tables, c: bool, r: seq<nat>)
    requires IsBatch(t, !c, r)
    ensures AsSet(r) !! UnmaterializedKeys(t, c).Keys
  {
  }

  /** The batch query serves the oldest of the class first. */
  lemma BatchServes(s: State, l: Label, a: nat)
    requires Enabled(s, l) && l.ReadBatch? && Waiting(s.db, a)
    ensures BatchFair(Step(s, l), a) && Need(Step(s, l), a) <= Need(s, a)
  {
    var t, c := s.db, Class(s.db, a);
    var mine, other := if c then l.critical else l.normal, if c then l.normal else l.critical;
    OtherClass(t, c, other);
    ClassServes(UnmaterializedKeys(t, c), SlotsFor(c), mine, AsSet(other), a);
    assert AsSet(l.critical + l.normal) == AsSet(mine) + AsSet(other);
    assert a in UnmaterializedKeys(t, c);
    assert a in l.critical + l.normal <==> a in AsSet(l.critical + l.normal);
    Divide(|Older(t, a)|, |Older(t, a)|, SlotsFor(c));
  }

  /** Inside the materialization phase every label works off the batch. */
  lemma NeedInPhase(s: State, l: Label, a: nat)
    requires Inv(s) && Enabled(s, l) && Waiting(s.db, a) && Waiting(Step(s, l).db, a) && BatchFair(s, a)
    requires !l.ReadBatch? && Step(s, l).proc.Materializing?
    ensures BatchFair(Step(s, l), a) && Need(Step(s, l), a) <= Need(s, a)
  {
    var s' := Step(s, l);
    var older, older' := Older(s.db, a), Older(s'.db, a);
    OlderShrinks(s, l, a);
    BatchMoves(s, l);
    var batch, batch' := AsSet(s.proc.batch), AsSet(s'.proc.batch);
    SubsetSize(older', older);
    SubsetSize(older' * batch', older * batch);
    SubsetSize(older' - batch', older - batch);
    Divide(|older' - batch'|, |older - batch|, SlotsFor(Class(s.db, a)));
    if l.Materialize? && a == s.proc.batch[0] {
      FanoutIsWhole(s.db, a, l.targets);
    }
    assert a in s.proc.batch ==> a in batch;
    assert a in batch' ==> a in s'.proc.batch;
  }

  /** Leaving the phase: completely (ReadDue) or by an interruption. */
  lemma NeedAfterPhase(s: State, l: Label, a: nat)
    requires Inv(s) && Enabled(s, l) && Waiting(s.db, a) && Waiting(Step(s, l).db, a) && BatchFair(s, a)
    requires s.proc.Materializing? && !Step(s, l).proc.Materializing?
    ensures Need(Step(s, l), a) <= Need(s, a) - (if l.ReadDue? then 1 else 0)
  {
    var older, older', batch := Older(s.db, a), Older(Step(s, l).db, a), AsSet(s.proc.batch);
    OlderShrinks(s, l, a);
    SubsetSize(older', older);
    Parts(older, batch);
    Divide(|older'|, |older - batch|, SlotsFor(Class(s.db, a)));
    Divide(|older'|, |older|, SlotsFor(Class(s.db, a)));
    if l.ReadDue? {
      assert older - batch == older;
    }
  }

  lemma NeedFalls(s: State, l: Label, a: nat)
    requires Inv(s) && Enabled(s, l) && Waiting(s.db, a) && Waiting(Step(s, l).db, a) && BatchFair(s, a)
    ensures BatchFair(Step(s, l), a)
    ensures Need(Step(s, l), a) <= Need(s, a) - (if l.ReadDue? then 1 else 0)
  {
    if l.ReadBatch? {
      BatchServes(s, l, a);
    } else if Step(s, l).proc.Materializing? {
      NeedInPhase(s, l, a);
    } else if s.proc.Materializing? {
      NeedAfterPhase(s, l, a);
    } else {
      OlderShrinks(s, l, a);
      SubsetSize(Older(Step(s, l).db, a), Older(s.db, a));
      Divide(|Older(Step(s, l).db, a)|, |Older(s.db, a)|, SlotsFor(Class(s.db, a)));
    }
  }

  lemma BatchMoves(s: State, l: Label)
    requires Enabled(s, l) && !l.ReadBatch? && Step(s, l).proc.Materializing?
    ensures s.proc.Materializing?
    ensures if l.Materialize? then s.proc.batch != [] && s.proc.batch == [s.proc.batch[0]] + Step(s, l).proc.batch
            else Step(s, l).proc.batch == s.proc.batch
    ensures AsSet(Step(s, l).proc.batch) <= AsSet(s.proc.batch)
    ensures l.Materialize? ==> AsSet(s.proc.batch) == AsSet(Step(s, l).proc.batch) + {s.proc.batch[0]}
  {
    if l.Materialize? {
      assert s.proc.batch == [s.proc.batch[0]] + s.proc.batch[1..];
    }
  }

  /** Passes of the run whose materialization phase completed without an error. */
  function CompletedPhases(ls: seq<Label>): nat {
    if ls == [] then 0 else (if ls[0].ReadDue? then 1 else 0) + CompletedPhases(ls[1..])
  }

  lemma {:induction false} NeedOverRun(s: State, ls: seq<Label>, a: nat)
    requires Inv(s) && Runs(s, ls) && Waiting(s.db, a) && BatchFair(s, a)
    requires !HasIntents(After(s, ls).db, a)
    ensures CompletedPhases(ls) < Need(s, a)
    decreases |ls|
  {
    if ls == [] {
    } else {
      var s' := Step(s, ls[0]);
      StepKeeps(s, ls[0]);
      GrowsStep(s, ls[0]);
      if HasIntents(s'.db, a) {
        IntentsFrozen(s', ls[1..], a);
        HasIds(s'.db, a);
        HasIds(After(s, ls).db, a);
      } else {
        NeedFalls(s, ls[0], a);
        NeedOverRun(s', ls[1..], a);
      }
    }
  }

  /**
   With k older alerts of its class waiting, an alert has its intents after k / slots + 1 completed
   passes, whatever producers insert and wherever other passes are interrupted.
   */
  lemma MaterializedWithin(s: State, ls: seq<Label>, a: nat)
    requires Inv(s) && Runs(s, ls) && s.proc.Resting? && Waiting(s.db, a)
    requires CompletedPhases(ls) >= |Older(s.db, a)| / SlotsFor(Class(s.db, a)) + 1
    ensures HasIntents(After(s, ls).db, a)
  {
    if !HasIntents(After(s, ls).db, a) {
      NeedOverRun(s, ls, a);
    }
  }
}
