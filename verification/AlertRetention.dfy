/**
 Retention of alerts running beside the dispatcher: its DELETE statements fall between any two statements of producers
 and of the dispatcher, each judging the alerts as they are at its own moment. Deleting an alert takes its intents and
 delivery rows along (CASCADE).
 */
module AlertRetention {
  import opened Options
  import opened Ranking
  import opened AlertTables
  import opened AlertProtocol
  import opened AlertSafety
  import opened AlertLimits
  import Retention

  // ---- the statement ----

  /** EXISTS an intent, and NOT EXISTS one that is not settled. */
  predicate DeliveredAlert(t: Tables, a: nat) {
    HasIntents(t, a) && forall i | i in t.intents && t.intents[i].alert == a :: t.intents[i].state.Settled?
  }

  /** The alerts as the pruning statement sees them; `created` is the creation time of each alert id. */
  function AlertRows(t: Tables, created: nat -> int): Retention.Table {
    map a | a in t.alerts :: Retention.Row(created(a), !DeliveredAlert(t, a))
  }

  ghost predicate IsPruned(t: Tables, created: nat -> int, days: nat, batch: seq<nat>) {
    IsLowest(Retention.EligibleKeys(AlertRows(t, created), days, t.now), Retention.BATCH, batch)
  }

  function RowsOfOthers(ds: seq<Delivery>, gone: set<nat>): seq<Delivery> {
    if ds == [] then []
    else
      var rest := RowsOfOthers(ds[..|ds| - 1], gone);
      if ds[|ds| - 1].alert in gone then rest else rest + [ds[|ds| - 1]]
  }

  function DeleteAlerts(t: Tables, gone: set<nat>): Tables {
    t.(alerts := t.alerts - gone,
       intents := map i | i in t.intents && t.intents[i].alert !in gone :: t.intents[i],
       deliveries := RowsOfOthers(t.deliveries, gone))
  }

  lemma PrunedMember(t: Tables, created: nat -> int, days: nat, batch: seq<nat>, a: nat)
    requires IsPruned(t, created, days, batch) && a in AsSet(batch)
    ensures a in t.alerts && DeliveredAlert(t, a) && Retention.Expired(created(a), days, t.now)
  {
    assert a in Retention.EligibleKeys(AlertRows(t, created), days, t.now);
  }

  lemma DeliveredStays(t: Tables, gone: set<nat>, a: nat)
    requires a !in gone
    ensures DeliveredAlert(DeleteAlerts(t, gone), a) <==> DeliveredAlert(t, a)
  {
    var t' := DeleteAlerts(t, gone);
    if HasIntents(t, a) {
      var i :| i in t.intents && t.intents[i].alert == a;
      assert i in t'.intents && t'.intents[i].alert == a;
    }
    forall i | i in t.intents && t.intents[i].alert == a ensures i in t'.intents && t'.intents[i] == t.intents[i] {
    }
  }

  /** On the alerts themselves the statement is the one of the batch loop. */
  lemma PruneIsOneBatch(t: Tables, created: nat -> int, days: nat, batch: seq<nat>)
    requires IsPruned(t, created, days, batch)
    ensures Retention.Takes(AlertRows(t, created), days, t.now, batch,
                            AlertRows(DeleteAlerts(t, AsSet(batch)), created), |batch|)
  {
    LowestIsShort(Retention.EligibleKeys(AlertRows(t, created), days, t.now), Retention.BATCH, batch);
    forall a | a in t.alerts && a !in AsSet(batch)
      ensures DeliveredAlert(DeleteAlerts(t, AsSet(batch)), a) <==> DeliveredAlert(t, a)
    {
      DeliveredStays(t, AsSet(batch), a);
    }
    assert AlertRows(DeleteAlerts(t, AsSet(batch)), created) == AlertRows(t, created) - AsSet(batch);
  }

  lemma {:induction false} RowsLeft(ds: seq<Delivery>, gone: set<nat>, d: Delivery)
    ensures multiset(RowsOfOthers(ds, gone))[d] == if d.alert in gone then 0 else multiset(ds)[d]
  {
    if ds != [] {
      RowsLeft(ds[..|ds| - 1], gone, d);
      assert ds == ds[..|ds| - 1] + [ds[|ds| - 1]];
    }
  }

  /** With a deleted alert go exactly its intents and its delivery rows; the alert itself goes only finished and out of date. */
  lemma PruneLeaves(t: Tables, created: nat -> int, days: nat, batch: seq<nat>, i: nat, d: Delivery)
    requires IsPruned(t, created, days, batch)
    ensures
      var gone, t' := AsSet(batch), DeleteAlerts(t, AsSet(batch));
      && |gone| <= 1000 && t' == t.(alerts := t'.alerts, intents := t'.intents, deliveries := t'.deliveries)
      && t'.alerts.Keys == t.alerts.Keys - gone && (forall a | a in t'.alerts :: t'.alerts[a] == t.alerts[a])
      && (i in t'.intents <==> i in t.intents && t.intents[i].alert !in gone) && (i in t'.intents ==> t'.intents[i] == t.intents[i])
      && multiset(t'.deliveries)[d] == if d.alert in gone then 0 else multiset(t.deliveries)[d]
  {
    RowsLeft(t.deliveries, AsSet(batch), d);
    LowestIsShort(Retention.EligibleKeys(AlertRows(t, created), days, t.now), Retention.BATCH, batch);
    DistinctSize(batch);
  }

  // ---- the combined machine ----

  datatype Act = Dispatch(step: Label) | Prune(batch: seq<nat>)

  ghost predicate Possible(s: State, created: nat -> int, days: nat, act: Act) {
    match act
    case Dispatch(l) => Enabled(s, l)
    case Prune(batch) => IsPruned(s.db, created, days, batch)
  }

  ghost function Do(s: State, created: nat -> int, days: nat, act: Act): State
    requires Possible(s, created, days, act)
  {
    match act
    case Dispatch(l) => Step(s, l)
    case Prune(batch) => s.(db := DeleteAlerts(s.db, AsSet(batch)))
  }

  ghost predicate Interleaved(s: State, created: nat -> int, days: nat, acts: seq<Act>)
    decreases |acts|
  {
    acts == []
    || (Possible(s, created, days, acts[0]) && Interleaved(Do(s, created, days, acts[0]), created, days, acts[1..]))
  }

  ghost function AfterActs(s: State, created: nat -> int, days: nat, acts: seq<Act>): State
    requires Interleaved(s, created, days, acts)
    decreases |acts|
  {
    if acts == [] then s else AfterActs(Do(s, created, days, acts[0]), created, days, acts[1..])
  }

  // ---- a deletion keeps the dispatcher's invariant ----

  lemma {:induction false} RowsKept(ds: seq<Delivery>, gone: set<nat>, d: Delivery)
    ensures d in RowsOfOthers(ds, gone) <==> d in ds && d.alert !in gone
  {
    if ds != [] {
      RowsKept(ds[..|ds| - 1], gone, d);
      assert ds == ds[..|ds| - 1] + [ds[|ds| - 1]];
    }
  }

  /** Rows of an intent whose alert stays are all kept. */
  lemma {:induction false} CountKept(ds: seq<Delivery>, gone: set<nat>, i: nat)
    requires forall q | 0 <= q < |ds| && ds[q].intent == i :: ds[q].alert !in gone
    ensures SentRows(RowsOfOthers(ds, gone), i) == SentRows(ds, i)
  {
    if ds != [] {
      var front, last := ds[..|ds| - 1], ds[|ds| - 1];
      CountKept(front, gone, i);
      SentRowsAppend(RowsOfOthers(front, gone), last, i);
    }
  }

  lemma AccountStays(s: State, gone: set<nat>, i: nat)
    requires RowsKnown(s.db) && i in s.db.intents && s.db.intents[i].alert !in gone
    ensures i in DeleteAlerts(s.db, gone).intents
    ensures AccountOf(s.(db := DeleteAlerts(s.db, gone)), i) == AccountOf(s, i)
  {
    CountKept(s.db.deliveries, gone, i);
  }

  /** Nothing the dispatcher has in hand belongs to a delivered alert. */
  lemma InHandSurvives(s: State, created: nat -> int, days: nat, batch: seq<nat>, i: nat)
    requires Inv(s) && IsPruned(s.db, created, days, batch) && i in s.db.intents && s.db.intents[i].Open()
    ensures s.db.intents[i].alert !in AsSet(batch)
  {
    if s.db.intents[i].alert in AsSet(batch) {
      PrunedMember(s.db, created, days, batch, s.db.intents[i].alert);
    }
  }

  lemma PruneKeepsIds(s: State, gone: set<nat>)
    requires IdsOk(s.db) && RowsKnown(s.db)
    ensures IdsOk(DeleteAlerts(s.db, gone)) && RowsKnown(DeleteAlerts(s.db, gone))
  {
    var t' := DeleteAlerts(s.db, gone);
    forall q | 0 <= q < |t'.deliveries|
      ensures t'.deliveries[q].intent in t'.intents && t'.deliveries[q].alert == t'.intents[t'.deliveries[q].intent].alert
      ensures t'.deliveries[q].alert in t'.alerts
    {
      RowsKept(s.db.deliveries, gone, t'.deliveries[q]);
      var p :| 0 <= p < |s.db.deliveries| && s.db.deliveries[p] == t'.deliveries[q];
    }
  }

  lemma PruneKeepsProc(s: State, created: nat -> int, days: nat, batch: seq<nat>)
    requires Inv(s) && IsPruned(s.db, created, days, batch)
    ensures ProcOk(s.(db := DeleteAlerts(s.db, AsSet(batch))))
  {
    var q, t' := Queue(s.proc), DeleteAlerts(s.db, AsSet(batch));
    forall k | 0 <= k < |q| ensures Current(t', q[k]) {
      assert Current(s.db, q[k]);
      InHandSurvives(s, created, days, batch, q[k].id);
    }
    if s.proc.Working? {
      assert AccountOk(AccountOf(s, s.proc.it.id), s.log.nextToken);
      InHandSurvives(s, created, days, batch, s.proc.it.id);
    }
  }

  lemma PruneKeepsBatch(s: State, created: nat -> int, days: nat, batch: seq<nat>)
    requires Inv(s) && IsPruned(s.db, created, days, batch)
    ensures BatchOk(s.(db := DeleteAlerts(s.db, AsSet(batch))))
  {
    var t' := DeleteAlerts(s.db, AsSet(batch));
    if s.proc.Materializing? {
      forall k | 0 <= k < |s.proc.batch| ensures s.proc.batch[k] in t'.alerts && !HasIntents(t', s.proc.batch[k]) {
        assert !HasIntents(s.db, s.proc.batch[k]);
        if s.proc.batch[k] in AsSet(batch) {
          PrunedMember(s.db, created, days, batch, s.proc.batch[k]);
        }
      }
    }
  }

  lemma PruneKeeps(s: State, created: nat -> int, days: nat, batch: seq<nat>)
    requires Inv(s) && RowsKnown(s.db) && IsPruned(s.db, created, days, batch)
    ensures Inv(s.(db := DeleteAlerts(s.db, AsSet(batch)))) && RowsKnown(DeleteAlerts(s.db, AsSet(batch)))
  {
    var s' := s.(db := DeleteAlerts(s.db, AsSet(batch)));
    PruneKeepsIds(s, AsSet(batch));
    PruneKeepsProc(s, created, days, batch);
    PruneKeepsBatch(s, created, days, batch);
    forall i | i in s'.db.intents ensures AccountOk(AccountOf(s', i), s'.log.nextToken) {
      AccountStays(s, AsSet(batch), i);
      assert AccountOk(AccountOf(s, i), s.log.nextToken);
    }
  }

  lemma ActKeeps(s: State, created: nat -> int, days: nat, act: Act)
    requires Inv(s) && RowsKnown(s.db) && Possible(s, created, days, act)
    ensures Inv(Do(s, created, days, act)) && RowsKnown(Do(s, created, days, act).db)
  {
    match act
    case Dispatch(l) =>
      StepKeeps(s, l);
      RowsKnownKept(s, l);
    case Prune(batch) => PruneKeeps(s, created, days, batch);
  }

  /**
   Retention between any two statements keeps the dispatcher's whole invariant: ids, the books of every remaining
   intent, and a work list whose rows are all still there.
   */
  lemma {:induction false} InterleavedKeeps(s: State, created: nat -> int, days: nat, acts: seq<Act>)
    requires Inv(s) && RowsKnown(s.db) && Interleaved(s, created, days, acts)
    ensures Inv(AfterActs(s, created, days, acts)) && RowsKnown(AfterActs(s, created, days, acts).db)
    decreases |acts|
  {
    if acts == [] {
    } else {
      ActKeeps(s, created, days, acts[0]);
      InterleavedKeeps(Do(s, created, days, acts[0]), created, days, acts[1..]);
    }
  }

  // ---- what may go, and when ----

  lemma {:induction false} PrefixRuns(s: State, created: nat -> int, days: nat, acts: seq<Act>, k: nat)
    requires Interleaved(s, created, days, acts) && k <= |acts|
    ensures Interleaved(s, created, days, acts[..k])
    decreases |acts|
  {
    if k > 0 {
      PrefixRuns(Do(s, created, days, acts[0]), created, days, acts[1..], k - 1);
      assert acts[..k][1..] == acts[1..][..k - 1];
    }
  }

  /** The alert has intents, and all of them are settled. */
  ghost predicate Finished(t: Tables, a: nat) {
    && (exists i | i in t.intents :: t.intents[i].alert == a)
    && forall i | i in t.intents && t.intents[i].alert == a :: t.intents[i].state == Settled
  }

  /** The moment the alert was deleted: by a statement that saw it delivered and past its window. */
  ghost predicate DeletedAt(s: State, created: nat -> int, days: nat, acts: seq<Act>, k: nat, a: nat)
    requires Interleaved(s, created, days, acts)
  {
    && k < |acts| && acts[k].Prune? && a in AsSet(acts[k].batch) && Interleaved(s, created, days, acts[..k])
    && var at := AfterActs(s, created, days, acts[..k]);
       && a in at.db.alerts && Finished(at.db, a)
       && created(a) < at.db.now - 86_400 && created(a) < at.db.now - days * 86_400
  }

  lemma DeletedLater(s: State, created: nat -> int, days: nat, acts: seq<Act>, k: nat, a: nat)
    requires acts != [] && Interleaved(s, created, days, acts)
    requires DeletedAt(Do(s, created, days, acts[0]), created, days, acts[1..], k, a)
    ensures DeletedAt(s, created, days, acts, k + 1, a)
  {
    PrefixRuns(s, created, days, acts, k + 1);
    assert acts[..k + 1][1..] == acts[1..][..k];
  }

  /**
   Whatever producers, the dispatcher and retention do in between, an alert disappears only by a pruning statement that
   at its own moment found every intent of it settled, at least one there, and the alert past its window.
   */
  lemma {:induction false} UndeliveredStays(s: State, created: nat -> int, days: nat, acts: seq<Act>, a: nat) returns (k: nat)
    requires Inv(s) && RowsKnown(s.db) && Interleaved(s, created, days, acts)
    requires a in s.db.alerts && a !in AfterActs(s, created, days, acts).db.alerts
    ensures DeletedAt(s, created, days, acts, k, a)
    decreases |acts|
  {
    assert acts != [];
    if a in Do(s, created, days, acts[0]).db.alerts {
      ActKeeps(s, created, days, acts[0]);
      var j := UndeliveredStays(Do(s, created, days, acts[0]), created, days, acts[1..], a);
      DeletedLater(s, created, days, acts, j, a);
      k := j + 1;
    } else {
      DeletedNow(s, created, days, acts, a);
      k := 0;
    }
  }

  lemma DeletedNow(s: State, created: nat -> int, days: nat, acts: seq<Act>, a: nat)
    requires Inv(s) && acts != [] && Interleaved(s, created, days, acts)
    requires a in s.db.alerts && a !in Do(s, created, days, acts[0]).db.alerts
    ensures DeletedAt(s, created, days, acts, 0, a)
  {
    GoneByPruning(s, created, days, acts[0], a);
    var i :| i in s.db.intents && s.db.intents[i].alert == a;
    assert acts[..0] == [] && AfterActs(s, created, days, []) == s;
  }

  lemma GoneByPruning(s: State, created: nat -> int, days: nat, act: Act, a: nat)
    requires Inv(s) && Possible(s, created, days, act) && a in s.db.alerts && a !in Do(s, created, days, act).db.alerts
    ensures act.Prune? && a in AsSet(act.batch)
    ensures DeliveredAlert(s.db, a) && Retention.Expired(created(a), days, s.db.now)
  {
    if act.Dispatch? {
      GrowsStep(s, act.step);
    } else {
      PrunedMember(s.db, created, days, act.batch, a);
    }
  }

  /**
   So the books balance with retention running beside the dispatcher from a fresh start: every intent still there has at
   most one sent row, says "sent" exactly with that row, and was attempted five times plus the interrupted ones at most.
   */
  lemma BooksWithRetention(s: State, created: nat -> int, days: nat, acts: seq<Act>, i: nat)
    requires Initial(s) && Interleaved(s, created, days, acts) && i in AfterActs(s, created, days, acts).db.intents
    ensures
      var now := AfterActs(s, created, days, acts);
      var row := now.db.intents[i];
      && SentRows(now.db.deliveries, i) <= 1
      && (row.state.Settled? ==> (row.outcome == Some(Outcome.Sent) <==> SentRows(now.db.deliveries, i) == 1))
      && row.attempts <= MAX_DELIVERY_ATTEMPTS + now.log.interrupted[i] && row.alert in now.db.alerts
  {
    InitialInv(s);
    InterleavedKeeps(s, created, days, acts);
    var now := AfterActs(s, created, days, acts);
    assert AccountOk(AccountOf(now, i), now.log.nextToken);
  }

  // ---- what the hourly count forgets ----

  ghost predicate Forgets(ds: seq<Delivery>, gone: set<nat>, target: Target, since: Time) {
    exists q | 0 <= q < |ds| :: SentTo(ds[q], target) && ds[q].at >= since && ds[q].alert in gone
  }

  lemma ForgetsAppend(ds: seq<Delivery>, last: Delivery, gone: set<nat>, target: Target, since: Time)
    ensures Forgets(ds + [last], gone, target, since)
       <==> Forgets(ds, gone, target, since) || (SentTo(last, target) && last.at >= since && last.alert in gone)
  {
    var all := ds + [last];
    assert all[|ds|] == last;
    if Forgets(ds, gone, target, since) {
      var q :| 0 <= q < |ds| && SentTo(ds[q], target) && ds[q].at >= since && ds[q].alert in gone;
      assert all[q] == ds[q];
    }
  }

  lemma SinceAppend(ds: seq<Delivery>, last: Delivery, target: Target, since: Time)
    ensures SentSince(ds + [last], target, since)
         == SentSince(ds, target, since) + if SentTo(last, target) && last.at >= since then 1 else 0
  {
    assert (ds + [last])[..|ds|] == ds;
  }

  lemma OthersAppend(ds: seq<Delivery>, last: Delivery, gone: set<nat>)
    ensures RowsOfOthers(ds + [last], gone)
         == if last.alert in gone then RowsOfOthers(ds, gone) else RowsOfOthers(ds, gone) + [last]
  {
    assert (ds + [last])[..|ds|] == ds;
  }

  lemma {:induction false} CountFalls(ds: seq<Delivery>, gone: set<nat>, target: Target, since: Time)
    ensures SentSince(RowsOfOthers(ds, gone), target, since) <= SentSince(ds, target, since)
  {
    if ds != [] {
      var front, last := ds[..|ds| - 1], ds[|ds| - 1];
      assert ds == front + [last];
      CountFalls(front, gone, target, since);
      OthersAppend(front, last, gone);
      SinceAppend(RowsOfOthers(front, gone), last, target, since);
    }
  }

  /** A deletion leaves the count behind the hourly limit alone exactly when no deleted row lies inside the window. */
  lemma {:induction false} CountKeptIff(ds: seq<Delivery>, gone: set<nat>, target: Target, since: Time)
    ensures SentSince(RowsOfOthers(ds, gone), target, since) == SentSince(ds, target, since)
       <==> !Forgets(ds, gone, target, since)
  {
    if ds != [] {
      var front, last := ds[..|ds| - 1], ds[|ds| - 1];
      assert ds == front + [last];
      CountKeptIff(front, gone, target, since);
      CountFalls(front, gone, target, since);
      ForgetsAppend(front, last, gone, target, since);
      OthersAppend(front, last, gone);
      SinceAppend(front, last, target, since);
      SinceAppend(RowsOfOthers(front, gone), last, target, since);
    }
  }
}
