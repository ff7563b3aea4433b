/**
 Without that guard both limits fail: a run from a fresh start in which twenty old alerts are delivered, retention deletes
 them at once, and a twenty-first message leaves in the same second, to the same target and with the key of the first.
 */
module RetentionWitness {
  import opened Options
  import opened Ranking
  import opened AlertTables
  import opened AlertProtocol
  import opened AlertSafety
  import opened AlertLimits
  import opened AlertFairness
  import opened AlertRetention
  import opened RetentionLimits
  import AlertWitness
  import Retention

  // ---- one delivery, on any tables ----

  function Delivering(): seq<Label> {
    [ClaimNext] + [CheckSent] + [CheckDedup] + [CheckRate] + [CheckMailer(true)] + [StartAttempt] + [Send(true)] + [Record] + [Close]
  }

  /** The next due intent is for an endpoint, and nothing stops it. */
  ghost predicate Unhindered(s: State) {
    && s.proc.Draining? && s.proc.due != []
    && var it := s.proc.due[0];
       && Current(s.db, it) && Eligible(s.db, it.id) && it.alert in s.db.alerts
       && it.target.Some? && it.target.value.Endpoint? && SentRows(s.db.deliveries, it.id) == 0
       && !RecentlyDelivered(s.db, it.alert, it.target.value) && !OverRateLimit(s.db, it.target.value)
  }

  function SentIntent(r: Intent): Intent {
    r.(attempts := r.attempts + 1, state := Settled, outcome := Some(Outcome.Sent), token := None, claimedAt := None)
  }

  /** What a delivery does to the tables. */
  function DeliveredTables(t: Tables, it: DueIntent): Tables
    requires it.id in t.intents
  {
    t.(intents := t.intents[it.id := SentIntent(t.intents[it.id])],
       deliveries := t.deliveries + [Delivery(it.id, it.alert, it.target, SentRow, t.now)])
  }

  ghost predicate InHand(s: State, t: State, row: Intent, stage: Stage)
    requires Unhindered(s)
  {
    var it := s.proc.due[0];
    && t.db == s.db.(intents := s.db.intents[it.id := row])
    && t.proc == Working(s.proc.due[1..], it, s.log.nextToken, stage)
  }

  function ClaimedRow(s: State): Intent
    requires Unhindered(s)
  {
    s.db.intents[s.proc.due[0].id].(token := Some(s.log.nextToken), claimedAt := Some(s.db.now))
  }

  lemma Claims(s: State)
    requires Unhindered(s)
    ensures Runs(s, [ClaimNext]) && InHand(s, After(s, [ClaimNext]), ClaimedRow(s), Claimed)
  {
    assert After(s, []) == s && [] + [ClaimNext] == [ClaimNext];
    AlertWitness.Extend(s, [], ClaimNext);
  }

  /** One check on tables that differ from those of s in the claimed row only. */
  lemma ChecksOnce(s: State, t: State, l: Label, stage: Stage, next: Stage)
    requires Unhindered(s) && InHand(s, t, ClaimedRow(s), stage)
    requires (l.CheckSent? && stage.Claimed? && next.Unsent?) || (l.CheckDedup? && stage.Unsent? && next.Fresh?)
          || (l.CheckRate? && stage.Fresh? && next.Admitted?) || (l.CheckMailer? && stage.Admitted? && next.Ready?)
    ensures Enabled(t, l) && InHand(s, Step(t, l), ClaimedRow(s), next)
  {
    var it := s.proc.due[0];
    assert RecentlyDelivered(t.db, it.alert, it.target.value) == RecentlyDelivered(s.db, it.alert, it.target.value);
    assert t.db.deliveries == s.db.deliveries && t.db.now == s.db.now;
  }

  lemma Admits(s: State)
    requires Unhindered(s)
    ensures
      var ls := [ClaimNext] + [CheckSent] + [CheckDedup] + [CheckRate] + [CheckMailer(true)];
      Runs(s, ls) && InHand(s, After(s, ls), ClaimedRow(s), Ready)
  {
    Claims(s);
    var ls := [ClaimNext];
    ChecksOnce(s, After(s, ls), CheckSent, Claimed, Unsent);
    AlertWitness.Extend(s, ls, CheckSent);
    ChecksOnce(s, After(s, ls + [CheckSent]), CheckDedup, Unsent, Fresh);
    AlertWitness.Extend(s, ls + [CheckSent], CheckDedup);
    ChecksOnce(s, After(s, ls + [CheckSent] + [CheckDedup]), CheckRate, Fresh, Admitted);
    AlertWitness.Extend(s, ls + [CheckSent] + [CheckDedup], CheckRate);
    ChecksOnce(s, After(s, ls + [CheckSent] + [CheckDedup] + [CheckRate]), CheckMailer(true), Admitted, Ready);
    AlertWitness.Extend(s, ls + [CheckSent] + [CheckDedup] + [CheckRate], CheckMailer(true));
  }

  lemma Starts(s: State, t: State)
    requires Unhindered(s) && InHand(s, t, ClaimedRow(s), Ready)
    ensures Enabled(t, StartAttempt)
    ensures InHand(s, Step(t, StartAttempt), ClaimedRow(s).(attempts := ClaimedRow(s).attempts + 1), Started)
  {
  }

  lemma Leaves(s: State, t: State)
    requires Unhindered(s) && InHand(s, t, ClaimedRow(s).(attempts := ClaimedRow(s).attempts + 1), Started)
    ensures Enabled(t, Send(true)) && Enabled(Step(t, Send(true)), Record)
    ensures
      var u := Step(Step(t, Send(true)), Record);
      && u.db == t.db.(deliveries := DeliveredTables(s.db, s.proc.due[0]).deliveries)
      && u.proc == t.proc.(stage := Closing(SettleSent))
  {
  }

  lemma SettlesSent(s: State, u: State)
    requires Unhindered(s) && u.proc == Working(s.proc.due[1..], s.proc.due[0], s.log.nextToken, Closing(SettleSent))
    requires
      u.db == s.db.(intents := s.db.intents[s.proc.due[0].id := ClaimedRow(s).(attempts := ClaimedRow(s).attempts + 1)],
                    deliveries := DeliveredTables(s.db, s.proc.due[0]).deliveries)
    ensures Enabled(u, Close) && Step(u, Close).proc == Draining(s.proc.due[1..])
    ensures Step(u, Close).db == DeliveredTables(s.db, s.proc.due[0])
  {
  }

  lemma DeliversNext(s: State)
    requires Unhindered(s)
    ensures Runs(s, Delivering())
    ensures After(s, Delivering()).db == DeliveredTables(s.db, s.proc.due[0])
    ensures After(s, Delivering()).proc == Draining(s.proc.due[1..])
  {
    Admits(s);
    var ls := [ClaimNext] + [CheckSent] + [CheckDedup] + [CheckRate] + [CheckMailer(true)];
    var t := After(s, ls);
    Starts(s, t);
    AlertWitness.Extend(s, ls, StartAttempt);
    Leaves(s, Step(t, StartAttempt));
    AlertWitness.Extend(s, ls + [StartAttempt], Send(true));
    AlertWitness.Extend(s, ls + [StartAttempt] + [Send(true)], Record);
    SettlesSent(s, After(s, ls + [StartAttempt] + [Send(true)] + [Record]));
    AlertWitness.Extend(s, ls + [StartAttempt] + [Send(true)] + [Record], Close);
  }

  // ---- counting up ----

  function Count(m: nat): seq<nat> { seq(m, (k: nat) => k) }

  lemma {:induction false} SpanWithout(m: nat, x: nat)
    requires x < m
    ensures |Span(0, m) - {x}| == m - 1
  {
    SpanSize(0, m);
  }

  /** Rows numbered in the order of their keys are listed as they are numbered. */
  ghost predicate Numbered(keys: Keyed, m: nat) {
    keys.Keys == Span(0, m) && forall j, k | 0 <= j < k < m :: Less(keys[j], keys[k])
  }

  lemma FewBelow(keys: Keyed, m: nat, x: nat)
    requires Numbered(keys, m) && x < m
    ensures |Below(keys, x)| < m
  {
    SpanWithout(m, x);
    assert !Less(keys[x], keys[x]) && Below(keys, x) <= Span(0, m) - {x};
    SubsetSize(Below(keys, x), Span(0, m) - {x});
  }

  /** Rows numbered in the order of their keys are listed as they are numbered. */
  lemma CountIsLowest(keys: Keyed, m: nat, slots: nat)
    requires Numbered(keys, m) && m <= slots
    ensures IsLowest(keys, slots, Count(m))
  {
    forall x | x in keys ensures |Below(keys, x)| < slots && x in Count(m) {
      assert Count(m)[x] == x;
      FewBelow(keys, m, x);
    }
  }

  lemma OnlyLowest(keys: Keyed, slots: nat, x: nat)
    requires keys.Keys == {x} && slots > 0
    ensures IsLowest(keys, slots, [x])
  {
    assert x in keys && !Less(keys[x], keys[x]);
    assert Below(keys, x) == {};
  }

  // ---- the twenty old alerts ----

  /** They were raised when the controller started, two days before anything is delivered. */
  const LATER: Time := 2 * Retention.DAY

  function Created(): nat -> int { (a: nat) => if a < RATE_LIMIT_PER_HOUR then 0 else LATER }

  function X(): Target { Endpoint(0) }

  function Name(a: nat): string { seq(a, _ => 'k') }

  function Old(a: nat): Alert { Alert("interface_down", "critical", Produced(Name(a))) }

  function Olds(k: nat): map<nat, Alert> { map a | a in Span(0, k) :: Old(a) }

  function Tab(now: Time, alerts: map<nat, Alert>, intents: map<nat, Intent>, ds: seq<Delivery>, na: nat, ni: nat): Tables {
    Tables(now, alerts, intents, ds, na, ni, AlertWitness.OneEndpoint())
  }

  function Startup(): State {
    State(Tab(0, map[], map[], [], 0, 0), Resting,
          History(multiset{}, multiset{}, multiset{}, multiset{}, multiset{}, map[], 0, 0, 0, 0))
  }

  lemma {:induction false} Raises(k: nat) returns (ls: seq<Label>)
    ensures Runs(Startup(), ls) && After(Startup(), ls) == Startup().(db := Tab(0, Olds(k), map[], [], k, 0))
  {
    if k == 0 {
      ls := [];
      assert Olds(0) == map[];
    } else {
      ls := Raises(k - 1);
      AlertWitness.Extend(Startup(), ls, Produce(Old(k - 1)));
      ls := ls + [Produce(Old(k - 1))];
      assert Olds(k - 1)[k - 1 := Old(k - 1)] == Olds(k);
    }
  }

  /** j alerts have their intent. */
  function Fanned(j: nat): map<nat, Intent> { map i | i in Span(0, j) :: NewIntent(i, X(), LATER) }

  ghost predicate Materialized(s: State, j: nat)
    requires j <= RATE_LIMIT_PER_HOUR
  {
    && s.db == Tab(LATER, Olds(RATE_LIMIT_PER_HOUR), Fanned(j), [], RATE_LIMIT_PER_HOUR, j)
    && s.proc == Materializing(Count(RATE_LIMIT_PER_HOUR)[j..])
  }

  lemma FirstBatch(t: Tables, m: nat)
    requires t == Tab(LATER, Olds(m), map[], [], m, 0) && m <= RATE_LIMIT_PER_HOUR
    ensures IsBatch(t, true, Count(m)) && IsBatch(t, false, [])
  {
    assert UnmaterializedKeys(t, true).Keys == Span(0, m);
    CountIsLowest(UnmaterializedKeys(t, true), m, SlotsFor(true));
    assert UnmaterializedKeys(t, false).Keys == {};
    AlertWitness.NoneLowest(UnmaterializedKeys(t, false), SlotsFor(false));
  }

  lemma Listens(a: Alert)
    ensures a.Critical() ==> Lists([X()], Audience(AlertWitness.OneEndpoint(), a))
  {
    assert Audience(AlertWitness.OneEndpoint(), a) == {X()};
    assert Members([X()]) == {X()};
  }

  lemma FannedNext(t: Tables, j: nat)
    requires t.nextIntent == j && t.intents == Fanned(j) && t.now == LATER
    ensures Fanout(t, j, [X()]) == t.(intents := Fanned(j + 1), nextIntent := j + 1)
  {
    assert Span(j, 1) == {j};
    assert FreshRows(t, j, [X()]) == map[j := NewIntent(j, X(), LATER)];
    assert Fanned(j) + map[j := NewIntent(j, X(), LATER)] == Fanned(j + 1);
  }

  lemma MaterializesNext(s: State, j: nat)
    requires j < RATE_LIMIT_PER_HOUR && Materialized(s, j)
    ensures Enabled(s, Materialize([X()])) && Materialized(Step(s, Materialize([X()])), j + 1)
  {
    var c := Count(RATE_LIMIT_PER_HOUR);
    assert s.proc.batch[0] == c[j] == j && c[j..][1..] == c[j + 1..];
    assert j in Span(0, RATE_LIMIT_PER_HOUR);
    Listens(Old(j));
    FannedNext(s.db, j);
  }

  lemma Materializes() returns (ls: seq<Label>)
    ensures Runs(Startup(), ls) && Materialized(After(Startup(), ls), RATE_LIMIT_PER_HOUR)
  {
    ls := Raises(RATE_LIMIT_PER_HOUR);
    AlertWitness.Extend(Startup(), ls, Wait(LATER));
    ls := ls + [Wait(LATER)];
    var n := RATE_LIMIT_PER_HOUR;
    FirstBatch(After(Startup(), ls).db, n);
    AlertWitness.Extend(Startup(), ls, ReadBatch(Count(n), []));
    ls := ls + [ReadBatch(Count(n), [])];
    assert Count(n) + [] == Count(n) && Count(n)[0..] == Count(n) && Fanned(0) == map[];
    var j := 0;
    while j < n
      invariant 0 <= j <= n && Runs(Startup(), ls) && Materialized(After(Startup(), ls), j)
    {
      MaterializesNext(After(Startup(), ls), j);
      AlertWitness.Extend(Startup(), ls, Materialize([X()]));
      ls, j := ls + [Materialize([X()])], j + 1;
    }
  }

  // ---- twenty deliveries ----

  function DueOf(i: nat): DueIntent { DueIntent(i, i, Some(X()), 0) }

  function Dues(m: nat): seq<DueIntent> { seq(m, (k: nat) => DueOf(k)) }

  function SentRowOf(i: nat): Delivery { Delivery(i, i, Some(X()), SentRow, LATER) }

  function SentLog(j: nat): seq<Delivery> { seq(j, (k: nat) => SentRowOf(k)) }

  function Half(j: nat): map<nat, Intent> {
    map i | i in Span(0, RATE_LIMIT_PER_HOUR) :: if i < j then SentIntent(NewIntent(i, X(), LATER)) else NewIntent(i, X(), LATER)
  }

  ghost predicate SentFirst(s: State, j: nat)
    requires j <= RATE_LIMIT_PER_HOUR
  {
    && s.db == Tab(LATER, Olds(RATE_LIMIT_PER_HOUR), Half(j), SentLog(j), RATE_LIMIT_PER_HOUR, RATE_LIMIT_PER_HOUR)
    && s.proc == Draining(Dues(RATE_LIMIT_PER_HOUR)[j..])
  }

  lemma DueKey(t: Tables, i: nat)
    requires t == Tab(LATER, Olds(RATE_LIMIT_PER_HOUR), Half(0), [], RATE_LIMIT_PER_HOUR, RATE_LIMIT_PER_HOUR)
    ensures i in DueKeys(t, true) <==> i in Span(0, RATE_LIMIT_PER_HOUR)
    ensures i in DueKeys(t, true) ==> DueKeys(t, true)[i] == Key(LATER, i, i) && Snapshot(t, i) == DueOf(i)
    ensures i !in DueKeys(t, false)
  {
    if i in Span(0, RATE_LIMIT_PER_HOUR) {
      assert t.intents[i] == NewIntent(i, X(), LATER) && t.alerts[i] == Old(i) && Eligible(t, i);
    }
  }

  lemma UrgentDue(t: Tables)
    requires t == Tab(LATER, Olds(RATE_LIMIT_PER_HOUR), Half(0), [], RATE_LIMIT_PER_HOUR, RATE_LIMIT_PER_HOUR)
    ensures IsLowest(DueKeys(t, true), SlotsFor(true), Count(RATE_LIMIT_PER_HOUR))
    ensures DueKeys(t, false) == map[]
  {
    var n, mine, other := RATE_LIMIT_PER_HOUR, DueKeys(t, true), DueKeys(t, false);
    forall i ensures (i in mine <==> i in Span(0, n)) && i !in other && (i in mine ==> mine[i] == Key(LATER, i, i)) {
      DueKey(t, i);
    }
    CountIsLowest(mine, n, SlotsFor(true));
  }

  lemma FirstDue(t: Tables)
    requires t == Tab(LATER, Olds(RATE_LIMIT_PER_HOUR), Half(0), [], RATE_LIMIT_PER_HOUR, RATE_LIMIT_PER_HOUR)
    ensures IsDue(t, true, Dues(RATE_LIMIT_PER_HOUR)) && IsDue(t, false, [])
  {
    var due := Dues(RATE_LIMIT_PER_HOUR);
    UrgentDue(t);
    AlertWitness.NoneLowest(DueKeys(t, false), SlotsFor(false));
    assert Ids(due) == Count(RATE_LIMIT_PER_HOUR) && Ids([]) == [];
    forall k | 0 <= k < |due| ensures due[k].id in t.intents && due[k] == Snapshot(t, due[k].id) {
      DueKey(t, k);
    }
  }

  lemma {:induction false} CountAll(j: nat, since: Time)
    requires since <= LATER
    ensures SentSince(SentLog(j), X(), since) == j
  {
    if j > 0 {
      assert SentLog(j)[..j - 1] == SentLog(j - 1);
      CountAll(j - 1, since);
    }
  }

  lemma NamesDiffer(a: nat, b: nat)
    requires a != b
    ensures Old(a).dedup != Old(b).dedup
  {
    assert |Name(a)| == a && |Name(b)| == b;
  }

  lemma NextUnhindered(s: State, j: nat)
    requires j < RATE_LIMIT_PER_HOUR && SentFirst(s, j)
    ensures Unhindered(s) && s.proc.due[0] == DueOf(j)
  {
    assert j in Span(0, RATE_LIMIT_PER_HOUR);
    forall q | 0 <= q < |s.db.deliveries| ensures s.db.deliveries[q].intent != j && !SameKey(s.db.alerts, s.db.deliveries[q].alert, j) {
      if q in s.db.alerts { NamesDiffer(q, j); }
    }
    NoRowsNoCount(s.db.deliveries, j);
    CountAll(j, LATER - HOUR_SECS);
  }

  lemma HalfNext(j: nat)
    requires j < RATE_LIMIT_PER_HOUR
    ensures j in Half(j) && Half(j)[j] == NewIntent(j, X(), LATER)
    ensures Half(j)[j := SentIntent(NewIntent(j, X(), LATER))] == Half(j + 1)
  {
    assert j in Span(0, RATE_LIMIT_PER_HOUR);
  }

  function HalfTables(j: nat): Tables {
    Tab(LATER, Olds(RATE_LIMIT_PER_HOUR), Half(j), SentLog(j), RATE_LIMIT_PER_HOUR, RATE_LIMIT_PER_HOUR)
  }

  lemma TablesNext(j: nat)
    requires j < RATE_LIMIT_PER_HOUR
    ensures j in HalfTables(j).intents && DeliveredTables(HalfTables(j), DueOf(j)) == HalfTables(j + 1)
  {
    HalfNext(j);
    assert SentLog(j) + [SentRowOf(j)] == SentLog(j + 1);
  }

  lemma OneMore(s: State, j: nat)
    requires j < RATE_LIMIT_PER_HOUR && SentFirst(s, j)
    ensures Runs(s, Delivering()) && SentFirst(After(s, Delivering()), j + 1)
  {
    NextUnhindered(s, j);
    DeliversNext(s);
    TablesNext(j);
    assert s.db == HalfTables(j);
    assert Dues(RATE_LIMIT_PER_HOUR)[j..][1..] == Dues(RATE_LIMIT_PER_HOUR)[j + 1..];
  }

  /** The first pass: twenty messages within one second, all allowed by both limits. */
  lemma FirstPass() returns (ls: seq<Label>)
    ensures Runs(Startup(), ls) && After(Startup(), ls).proc.Resting?
    ensures After(Startup(), ls).db
         == Tab(LATER, Olds(RATE_LIMIT_PER_HOUR), Half(RATE_LIMIT_PER_HOUR), SentLog(RATE_LIMIT_PER_HOUR),
                RATE_LIMIT_PER_HOUR, RATE_LIMIT_PER_HOUR)
  {
    var n := RATE_LIMIT_PER_HOUR;
    ls := Materializes();
    assert Fanned(n) == Half(0) && Dues(n)[0..] == Dues(n) && Dues(n) + [] == Dues(n);
    FirstDue(After(Startup(), ls).db);
    AlertWitness.Extend(Startup(), ls, ReadDue(Dues(n), []));
    ls := ls + [ReadDue(Dues(n), [])];
    assert SentLog(0) == [];
    var j := 0;
    while j < n
      invariant 0 <= j <= n && Runs(Startup(), ls) && SentFirst(After(Startup(), ls), j)
    {
      OneMore(After(Startup(), ls), j);
      RunsConcat(Startup(), ls, Delivering());
      ls, j := ls + Delivering(), j + 1;
    }
    AlertWitness.Extend(Startup(), ls, EndPass);
    ls := ls + [EndPass];
  }

  // ---- the deletion and the twenty-first message ----

  lemma EachDeletable(t: Tables, a: nat)
    requires t == Tab(LATER, Olds(RATE_LIMIT_PER_HOUR), Half(RATE_LIMIT_PER_HOUR), SentLog(RATE_LIMIT_PER_HOUR),
                      RATE_LIMIT_PER_HOUR, RATE_LIMIT_PER_HOUR)
    requires a in Span(0, RATE_LIMIT_PER_HOUR)
    ensures a in AlertRows(t, Created()) && AlertRows(t, Created())[a] == Retention.Row(0, false)
  {
    assert a in t.intents && t.intents[a].alert == a;
    assert DeliveredAlert(t, a);
  }

  lemma OldRows(t: Tables)
    requires t == Tab(LATER, Olds(RATE_LIMIT_PER_HOUR), Half(RATE_LIMIT_PER_HOUR), SentLog(RATE_LIMIT_PER_HOUR),
                      RATE_LIMIT_PER_HOUR, RATE_LIMIT_PER_HOUR)
    ensures AlertRows(t, Created()).Keys == Span(0, RATE_LIMIT_PER_HOUR)
    ensures forall a | a in AlertRows(t, Created()) :: AlertRows(t, Created())[a] == Retention.Row(0, false)
  {
    forall a | a in AlertRows(t, Created()) ensures AlertRows(t, Created())[a] == Retention.Row(0, false) {
      EachDeletable(t, a);
    }
  }

  function Aged(m: nat): Keyed { map a | a in Span(0, m) :: Key(0, 0, a) }

  lemma AgedKeys(rows: Retention.Table)
    requires rows.Keys == Span(0, RATE_LIMIT_PER_HOUR)
    requires forall a | a in rows :: rows[a] == Retention.Row(0, false)
    ensures Retention.EligibleKeys(rows, 1, LATER) == Aged(RATE_LIMIT_PER_HOUR)
  {
    assert Retention.Eligible(Retention.Row(0, false), 1, LATER);
  }

  lemma Deletable(t: Tables)
    requires t == Tab(LATER, Olds(RATE_LIMIT_PER_HOUR), Half(RATE_LIMIT_PER_HOUR), SentLog(RATE_LIMIT_PER_HOUR),
                      RATE_LIMIT_PER_HOUR, RATE_LIMIT_PER_HOUR)
    ensures IsPruned(t, Created(), 1, Count(RATE_LIMIT_PER_HOUR))
  {
    OldRows(t);
    AgedKeys(AlertRows(t, Created()));
    CountIsLowest(Aged(RATE_LIMIT_PER_HOUR), RATE_LIMIT_PER_HOUR, Retention.BATCH);
  }

  lemma {:induction false} AllGone(j: nat)
    requires j <= RATE_LIMIT_PER_HOUR
    ensures RowsOfOthers(SentLog(j), AsSet(Count(RATE_LIMIT_PER_HOUR))) == []
  {
    if j > 0 {
      assert SentLog(j)[..j - 1] == SentLog(j - 1);
      AllGone(j - 1);
      assert Count(RATE_LIMIT_PER_HOUR)[j - 1] == j - 1;
    }
  }

  lemma Emptied(t: Tables)
    requires t == Tab(LATER, Olds(RATE_LIMIT_PER_HOUR), Half(RATE_LIMIT_PER_HOUR), SentLog(RATE_LIMIT_PER_HOUR),
                      RATE_LIMIT_PER_HOUR, RATE_LIMIT_PER_HOUR)
    ensures DeleteAlerts(t, AsSet(Count(RATE_LIMIT_PER_HOUR)))
         == Tab(LATER, map[], map[], [], RATE_LIMIT_PER_HOUR, RATE_LIMIT_PER_HOUR)
  {
    AllGone(RATE_LIMIT_PER_HOUR);
    forall a | a in Span(0, RATE_LIMIT_PER_HOUR) ensures a in AsSet(Count(RATE_LIMIT_PER_HOUR)) {
      assert Count(RATE_LIMIT_PER_HOUR)[a] == a;
    }
  }

  /** A new alert with the key of the first one, and the pass that delivers it. */
  function Again(): seq<Label> {
    [Produce(Old(0))] + [ReadBatch([RATE_LIMIT_PER_HOUR], [])] + [Materialize([X()])]
    + [ReadDue([DueOf(RATE_LIMIT_PER_HOUR)], [])]
  }

  function AfterDeletion(): Tables { Tab(LATER, map[], map[], [], RATE_LIMIT_PER_HOUR, RATE_LIMIT_PER_HOUR) }

  function WithNew(intents: map<nat, Intent>, ni: nat): Tables {
    Tab(LATER, map[RATE_LIMIT_PER_HOUR := Old(0)], intents, [], RATE_LIMIT_PER_HOUR + 1, ni)
  }

  lemma NewBatch()
    ensures
      var t := WithNew(map[], RATE_LIMIT_PER_HOUR);
      IsBatch(t, true, [RATE_LIMIT_PER_HOUR]) && IsBatch(t, false, [])
  {
    var t := WithNew(map[], RATE_LIMIT_PER_HOUR);
    assert UnmaterializedKeys(t, true).Keys == {RATE_LIMIT_PER_HOUR};
    OnlyLowest(UnmaterializedKeys(t, true), SlotsFor(true), RATE_LIMIT_PER_HOUR);
    assert UnmaterializedKeys(t, false).Keys == {};
    AlertWitness.NoneLowest(UnmaterializedKeys(t, false), SlotsFor(false));
  }

  function NewIntents(): map<nat, Intent> { map[RATE_LIMIT_PER_HOUR := NewIntent(RATE_LIMIT_PER_HOUR, X(), LATER)] }

  lemma NewFanned()
    ensures Fanout(WithNew(map[], RATE_LIMIT_PER_HOUR), RATE_LIMIT_PER_HOUR, [X()])
         == WithNew(NewIntents(), RATE_LIMIT_PER_HOUR + 1)
  {
    assert Span(RATE_LIMIT_PER_HOUR, 1) == {RATE_LIMIT_PER_HOUR};
    assert FreshRows(WithNew(map[], RATE_LIMIT_PER_HOUR), RATE_LIMIT_PER_HOUR, [X()]) == NewIntents();
  }

  lemma NewDue()
    ensures
      var t := WithNew(NewIntents(), RATE_LIMIT_PER_HOUR + 1);
      IsDue(t, true, [DueOf(RATE_LIMIT_PER_HOUR)]) && IsDue(t, false, [])
  {
    var t, n := WithNew(NewIntents(), RATE_LIMIT_PER_HOUR + 1), RATE_LIMIT_PER_HOUR;
    assert t.intents[n] == NewIntent(n, X(), LATER) && Eligible(t, n);
    assert DueKeys(t, true).Keys == {n};
    OnlyLowest(DueKeys(t, true), SlotsFor(true), n);
    assert DueKeys(t, false).Keys == {};
    AlertWitness.NoneLowest(DueKeys(t, false), SlotsFor(false));
    assert Ids([DueOf(n)]) == [n] && Ids([]) == [];
  }

  lemma ReadsAgain(s: State)
    requires s.proc.Resting? && s.db == AfterDeletion()
    ensures Runs(s, Again()) && After(s, Again()).proc == Draining([DueOf(RATE_LIMIT_PER_HOUR)])
    ensures After(s, Again()).db == WithNew(NewIntents(), RATE_LIMIT_PER_HOUR + 1)
  {
    var n := RATE_LIMIT_PER_HOUR;
    assert After(s, []) == s && [] + [Produce(Old(0))] == [Produce(Old(0))];
    AlertWitness.Extend(s, [], Produce(Old(0)));
    var ls := [Produce(Old(0))];
    assert After(s, ls).db == WithNew(map[], n);
    NewBatch();
    AlertWitness.Extend(s, ls, ReadBatch([n], []));
    assert [n] + [] == [n] && [n][1..] == [];
    ls := ls + [ReadBatch([n], [])];
    Listens(Old(0));
    NewFanned();
    AlertWitness.Extend(s, ls, Materialize([X()]));
    ls := ls + [Materialize([X()])];
    NewDue();
    AlertWitness.Extend(s, ls, ReadDue([DueOf(n)], []));
    assert [DueOf(n)] + [] == [DueOf(n)];
  }

  lemma SendsAgain(s: State)
    requires s.proc.Resting? && s.db == AfterDeletion()
    ensures Runs(s, Again() + Delivering())
    ensures After(s, Again() + Delivering()).db.deliveries == [SentRowOf(RATE_LIMIT_PER_HOUR)]
    ensures After(s, Again() + Delivering()).db.alerts == map[RATE_LIMIT_PER_HOUR := Old(0)]
  {
    ReadsAgain(s);
    var t := After(s, Again());
    assert Current(t.db, DueOf(RATE_LIMIT_PER_HOUR)) && Eligible(t.db, RATE_LIMIT_PER_HOUR);
    DeliversNext(t);
    RunsConcat(s, Again(), Delivering());
    assert [] + [SentRowOf(RATE_LIMIT_PER_HOUR)] == [SentRowOf(RATE_LIMIT_PER_HOUR)];
  }

  // ---- the whole run ----

  function Lift(ls: seq<Label>): seq<Act> {
    if ls == [] then [] else [Dispatch(ls[0])] + Lift(ls[1..])
  }

  /** What a run of the dispatcher adds to the archive: its alerts, and the rows beyond those it found. */
  ghost predicate Follows(ar: Archive, ar': Archive, s: State, t: State) {
    && s.db.deliveries <= t.db.deliveries
    && ar'.rows == ar.rows + t.db.deliveries[|s.db.deliveries|..] && ar'.alerts == ar.alerts + t.db.alerts
  }

  lemma FollowsOne(ar: Archive, s: State, created: nat -> int, days: nat, l: Label)
    requires Inv(s) && Enabled(s, l)
    ensures Follows(ar, Noted(ar, s, created, days, Dispatch(l)), s, Step(s, l))
  {
    RowsAppended(s, l);
    if l.Record? {
      assert Step(s, l).db.deliveries == s.db.deliveries + [NewRow(s)];
    }
  }

  lemma FollowsOn(ar: Archive, mid: Archive, end: Archive, s: State, t: State, u: State)
    requires Follows(ar, mid, s, t) && Follows(mid, end, t, u) && Grows(t.db, u.db)
    ensures Follows(ar, end, s, u)
  {
    assert u.db.deliveries[|s.db.deliveries|..]
        == t.db.deliveries[|s.db.deliveries|..] + u.db.deliveries[|t.db.deliveries|..];
    assert ar.alerts + t.db.alerts + u.db.alerts == ar.alerts + u.db.alerts;
  }

  lemma {:induction false} LiftRuns(ar: Archive, s: State, created: nat -> int, days: nat, ls: seq<Label>)
    requires Inv(s) && Runs(s, ls) && ls != []
    ensures Interleaved(s, created, days, Lift(ls)) && AfterActs(s, created, days, Lift(ls)) == After(s, ls)
    ensures Follows(ar, Archived(ar, s, created, days, Lift(ls)), s, After(s, ls))
    decreases |ls|
  {
    var s' := Step(s, ls[0]);
    StepKeeps(s, ls[0]);
    FollowsOne(ar, s, created, days, ls[0]);
    assert Lift(ls)[0] == Dispatch(ls[0]) && Lift(ls)[1..] == Lift(ls[1..]);
    if |ls| == 1 {
      assert ls[1..] == [] && Lift(ls[1..]) == [];
    } else {
      var mid := Noted(ar, s, created, days, Dispatch(ls[0]));
      LiftRuns(mid, s', created, days, ls[1..]);
      RunKeeps(s', ls[1..]);
      FollowsOn(ar, mid, Archived(mid, s', created, days, Lift(ls[1..])), s, s', After(s, ls));
    }
  }

  lemma FirstAct(s: State, created: nat -> int, days: nat, act: Act, rest: seq<Act>)
    requires Possible(s, created, days, act) && Interleaved(Do(s, created, days, act), created, days, rest)
    ensures Interleaved(s, created, days, [act] + rest)
    ensures AfterActs(s, created, days, [act] + rest) == AfterActs(Do(s, created, days, act), created, days, rest)
  {
    assert ([act] + rest)[0] == act && ([act] + rest)[1..] == rest;
  }

  lemma {:induction false} ActsConcat(s: State, created: nat -> int, days: nat, a: seq<Act>, b: seq<Act>)
    requires Interleaved(s, created, days, a) && Interleaved(AfterActs(s, created, days, a), created, days, b)
    ensures Interleaved(s, created, days, a + b)
    ensures AfterActs(s, created, days, a + b) == AfterActs(AfterActs(s, created, days, a), created, days, b)
    decreases |a|
  {
    if a == [] {
      assert a + b == b;
    } else {
      ActsConcat(Do(s, created, days, a[0]), created, days, a[1..], b);
      FirstAct(s, created, days, a[0], a[1..] + b);
      assert a + b == [a[0]] + (a[1..] + b);
    }
  }

  lemma {:induction false} ArchiveConcat(ar: Archive, s: State, created: nat -> int, days: nat, a: seq<Act>, b: seq<Act>)
    requires Interleaved(s, created, days, a) && Interleaved(AfterActs(s, created, days, a), created, days, b)
    requires Interleaved(s, created, days, a + b)
    ensures Archived(ar, s, created, days, a + b)
         == Archived(Archived(ar, s, created, days, a), AfterActs(s, created, days, a), created, days, b)
    decreases |a|
  {
    if a == [] {
      assert a + b == b;
    } else {
      assert (a + b)[0] == a[0] && (a + b)[1..] == a[1..] + b;
      ArchiveConcat(Noted(ar, s, created, days, a[0]), Do(s, created, days, a[0]), created, days, a[1..], b);
    }
  }

  lemma {:induction false} AllPaced(alerts: Alerts, j: nat)
    requires forall a | 0 <= a < j :: a in alerts && !alerts[a].Immediate()
    ensures PacedBetween(alerts, SentLog(j), X(), LATER, LATER + HOUR_SECS) == j
  {
    if j > 0 {
      assert SentLog(j)[..j - 1] == SentLog(j - 1);
      AllPaced(alerts, j - 1);
    }
  }

  lemma DeletesAll(ar: Archive, s: State)
    requires s.db == Tab(LATER, Olds(RATE_LIMIT_PER_HOUR), Half(RATE_LIMIT_PER_HOUR), SentLog(RATE_LIMIT_PER_HOUR),
                         RATE_LIMIT_PER_HOUR, RATE_LIMIT_PER_HOUR)
    ensures
      var prune := [Prune(Count(RATE_LIMIT_PER_HOUR))];
      && Interleaved(s, Created(), 1, prune) && AfterActs(s, Created(), 1, prune) == s.(db := AfterDeletion())
      && Archived(ar, s, Created(), 1, prune) == ar
  {
    var act := Prune(Count(RATE_LIMIT_PER_HOUR));
    Deletable(s.db);
    Emptied(s.db);
    assert [act][0] == act && [act][1..] == [];
    assert Do(s, Created(), 1, act) == s.(db := AfterDeletion());
  }

  /** The archive at the moment of the deletion. */
  function TwentySent(): Archive { Archive(Olds(RATE_LIMIT_PER_HOUR), SentLog(RATE_LIMIT_PER_HOUR)) }

  lemma FirstTwenty() returns (acts: seq<Act>)
    ensures Initial(Startup()) && Interleaved(Startup(), Created(), 1, acts)
    ensures
      var s := AfterActs(Startup(), Created(), 1, acts);
      s.proc.Resting? && s.db == Tab(LATER, Olds(RATE_LIMIT_PER_HOUR), Half(RATE_LIMIT_PER_HOUR),
                                     SentLog(RATE_LIMIT_PER_HOUR), RATE_LIMIT_PER_HOUR, RATE_LIMIT_PER_HOUR)
    ensures Archived(Begun(Startup()), Startup(), Created(), 1, acts) == TwentySent()
  {
    var s := Startup();
    var ls := FirstPass();
    InitialInv(s);
    assert ls != [] by { assert After(s, []) == s; }
    LiftRuns(Begun(s), s, Created(), 1, ls);
    acts := Lift(ls);
    var log := SentLog(RATE_LIMIT_PER_HOUR);
    assert log[0..] == log && [] + log == log;
    assert map[] + Olds(RATE_LIMIT_PER_HOUR) == Olds(RATE_LIMIT_PER_HOUR);
  }

  lemma UntilDeletion() returns (acts: seq<Act>)
    ensures Initial(Startup()) && Interleaved(Startup(), Created(), 1, acts)
    ensures AfterActs(Startup(), Created(), 1, acts).proc.Resting?
    ensures AfterActs(Startup(), Created(), 1, acts).db == AfterDeletion()
    ensures Archived(Begun(Startup()), Startup(), Created(), 1, acts) == TwentySent()
  {
    acts := FirstTwenty();
    DeletesAll(TwentySent(), AfterActs(Startup(), Created(), 1, acts));
    ActsConcat(Startup(), Created(), 1, acts, [Prune(Count(RATE_LIMIT_PER_HOUR))]);
    ArchiveConcat(Begun(Startup()), Startup(), Created(), 1, acts, [Prune(Count(RATE_LIMIT_PER_HOUR))]);
    acts := acts + [Prune(Count(RATE_LIMIT_PER_HOUR))];
  }

  /** The archive at the end. */
  function OneMoreSent(): Archive {
    Archive(Olds(RATE_LIMIT_PER_HOUR) + map[RATE_LIMIT_PER_HOUR := Old(0)], SentLog(RATE_LIMIT_PER_HOUR + 1))
  }

  lemma LastNoted(ar: Archive, s: State, t: State)
    requires Follows(TwentySent(), ar, s, t) && s.db.deliveries == []
    requires t.db.deliveries == [SentRowOf(RATE_LIMIT_PER_HOUR)]
    requires t.db.alerts == map[RATE_LIMIT_PER_HOUR := Old(0)]
    ensures ar == OneMoreSent()
  {
    var n, last := RATE_LIMIT_PER_HOUR, [SentRowOf(RATE_LIMIT_PER_HOUR)];
    assert last[0..] == last && SentLog(n) + last == SentLog(n + 1);
  }

  lemma SentOnce(s: State) returns (acts: seq<Act>)
    requires Inv(s) && s.proc.Resting? && s.db == AfterDeletion()
    ensures Interleaved(s, Created(), 1, acts) && Archived(TwentySent(), s, Created(), 1, acts) == OneMoreSent()
  {
    var ls := Again() + Delivering();
    SendsAgain(s);
    LiftRuns(TwentySent(), s, Created(), 1, ls);
    acts := Lift(ls);
    LastNoted(Archived(TwentySent(), s, Created(), 1, acts), s, After(s, ls));
  }

  lemma WholeRun() returns (acts: seq<Act>)
    ensures Initial(Startup()) && Interleaved(Startup(), Created(), 1, acts)
    ensures Archived(Begun(Startup()), Startup(), Created(), 1, acts) == OneMoreSent()
  {
    var first := UntilDeletion();
    InitialInv(Startup());
    InterleavedKeeps(Startup(), Created(), 1, first);
    var more := SentOnce(AfterActs(Startup(), Created(), 1, first));
    ActsConcat(Startup(), Created(), 1, first, more);
    ArchiveConcat(Begun(Startup()), Startup(), Created(), 1, first, more);
    acts := first + more;
  }

  lemma PacedKind(a: nat)
    ensures !Old(a).Immediate()
  {
  }

  /** Twenty-one in the hour, the first and the last equal and in the same second. */
  ghost predicate Broken(ar: Archive) {
    && |ar.rows| == RATE_LIMIT_PER_HOUR + 1
    && PacedBetween(ar.alerts, ar.rows, X(), LATER, LATER + HOUR_SECS) == RATE_LIMIT_PER_HOUR + 1
    && SentTo(ar.rows[0], X()) && SentTo(ar.rows[RATE_LIMIT_PER_HOUR], X())
    && Paced(ar.alerts, ar.rows[RATE_LIMIT_PER_HOUR])
    && SameKey(ar.alerts, ar.rows[0].alert, ar.rows[RATE_LIMIT_PER_HOUR].alert)
    && ar.rows[0].at == ar.rows[RATE_LIMIT_PER_HOUR].at
  }

  lemma LastAlerts(a: nat)
    requires a <= RATE_LIMIT_PER_HOUR
    ensures a in OneMoreSent().alerts && !OneMoreSent().alerts[a].Immediate()
    ensures a == 0 || a == RATE_LIMIT_PER_HOUR ==> OneMoreSent().alerts[a] == Old(0)
  {
    PacedKind(a);
    PacedKind(0);
    if a < RATE_LIMIT_PER_HOUR { assert a in Span(0, RATE_LIMIT_PER_HOUR); }
  }

  lemma HourBroken()
    ensures PacedBetween(OneMoreSent().alerts, OneMoreSent().rows, X(), LATER, LATER + HOUR_SECS) == RATE_LIMIT_PER_HOUR + 1
  {
    forall a: nat | a < RATE_LIMIT_PER_HOUR + 1 ensures a in OneMoreSent().alerts && !OneMoreSent().alerts[a].Immediate() {
      LastAlerts(a);
    }
    AllPaced(OneMoreSent().alerts, RATE_LIMIT_PER_HOUR + 1);
  }

  lemma BothBroken()
    ensures Broken(OneMoreSent())
  {
    HourBroken();
    LastAlerts(0);
    LastAlerts(RATE_LIMIT_PER_HOUR);
  }

  /**
   A run from a fresh start, retention keeping one day: twenty-one paced messages to one target within an hour, the last of
   them with the key of the first and in the same second. Alerts are created at the times that `Created` says.
   */
  lemma LimitsFailUnguarded() returns (acts: seq<Act>)
    ensures Initial(Startup()) && Interleaved(Startup(), Created(), 1, acts)
    ensures Broken(Archived(Begun(Startup()), Startup(), Created(), 1, acts))
  {
    acts := WholeRun();
    BothBroken();
  }
}
