/**
 The sliding windows over every run: at most twenty non-immediate messages to a target in any hour,
 none within ten minutes of an equal one, and nothing suppressed without such an equal message.
 Deleting rows (retention) is not interleaved here, but in AlertRetention and RetentionLimits.
 */
module AlertLimits {
  import opened Options
  import opened Ranking
  import opened AlertTables
  import opened AlertProtocol
  import opened AlertSafety

  type Alerts = map<nat, Alert>

  /** A sent row of an alert that is subject to the limits. */
  predicate Paced(alerts: Alerts, d: Delivery) {
    d.status.SentRow? && d.alert in alerts && !alerts[d.alert].Immediate()
  }

  /** An equal message to the same target at or after `since`. */
  ghost predicate EqualSince(alerts: Alerts, ds: seq<Delivery>, alert: nat, target: Target, since: Time) {
    exists q | 0 <= q < |ds| :: SentTo(ds[q], target) && SameKey(alerts, ds[q].alert, alert) && ds[q].at >= since
  }

  /** The last row respects the hourly limit as it stood when it was written. */
  ghost predicate RateRow(alerts: Alerts, ds: seq<Delivery>, d: Delivery) {
    Paced(alerts, d) && d.target.Some? ==> SentSince(ds, d.target.value, d.at - HOUR_SECS) < RATE_LIMIT_PER_HOUR
  }

  /** And so it does the de-duplication window. */
  ghost predicate GapRow(alerts: Alerts, ds: seq<Delivery>, d: Delivery) {
    Paced(alerts, d) && d.target.Some? ==> !EqualSince(alerts, ds, d.alert, d.target.value, d.at - DEDUP_WINDOW_SECS)
  }

  ghost predicate RateLog(alerts: Alerts, ds: seq<Delivery>) {
    ds == [] || (RateLog(alerts, ds[..|ds| - 1]) && RateRow(alerts, ds[..|ds| - 1], ds[|ds| - 1]))
  }

  ghost predicate GapLog(alerts: Alerts, ds: seq<Delivery>) {
    ds == [] || (GapLog(alerts, ds[..|ds| - 1]) && GapRow(alerts, ds[..|ds| - 1], ds[|ds| - 1]))
  }

  ghost predicate InOrder(ds: seq<Delivery>, now: Time) {
    && (forall q | 0 <= q < |ds| :: ds[q].at <= now)
    && (forall p, q | 0 <= p < q < |ds| :: ds[p].at <= ds[q].at)
  }

  ghost predicate RowsKnown(t: Tables) {
    forall q | 0 <= q < |t.deliveries| ::
      t.deliveries[q].intent in t.intents && t.deliveries[q].alert == t.intents[t.deliveries[q].intent].alert
      && t.deliveries[q].alert in t.alerts
  }

  type Hits = map<nat, Time>

  /** The check that suppressed intent i saw an equal message at most ten minutes old. */
  ghost predicate Witnessed(t: Tables, hits: Hits, i: nat, alert: nat, target: Option<Target>) {
    i in hits && target.Some? && EqualSince(t.alerts, t.deliveries, alert, target.value, hits[i] - DEDUP_WINDOW_SECS)
  }

  /** What the checks already done for a claimed intent still say at this stage. */
  ghost predicate CheckedAs(t: Tables, hits: Hits, it: DueIntent, st: Stage) {
    && it.alert in t.alerts
    && (st in {Fresh, Admitted, Ready, Started, Delivered} && !ImmediateIt(t, it) && it.target.Some? ==>
          !EqualSince(t.alerts, t.deliveries, it.alert, it.target.value, t.now - DEDUP_WINDOW_SECS))
    && (st in {Admitted, Ready, Started, Delivered} && !ImmediateIt(t, it) && it.target.Some? ==>
          SentSince(t.deliveries, it.target.value, t.now - HOUR_SECS) < RATE_LIMIT_PER_HOUR)
    && (st in {Suppressing, Closing(SettleSuppressed)} ==> Witnessed(t, hits, it.id, it.alert, it.target))
  }

  ghost predicate CheckedOk(s: State) {
    s.proc.Working? ==> CheckedAs(s.db, s.log.dedupHits, s.proc.it, s.proc.stage)
  }

  ghost predicate SuppressedOk(s: State) {
    forall i | i in s.db.intents && s.db.intents[i].outcome == Some(Suppressed) ::
      Witnessed(s.db, s.log.dedupHits, i, s.db.intents[i].alert, s.db.intents[i].target)
  }

  ghost predicate Limits(s: State) {
    && RateLog(s.db.alerts, s.db.deliveries)
    && GapLog(s.db.alerts, s.db.deliveries)
    && InOrder(s.db.deliveries, s.db.now)
    && RowsKnown(s.db)
    && CheckedOk(s)
    && SuppressedOk(s)
  }

  // ---- the window functions under growing tables and a moving clock ----

  lemma {:induction false} SentSinceLater(ds: seq<Delivery>, target: Target, a: Time, b: Time)
    requires a <= b
    ensures SentSince(ds, target, b) <= SentSince(ds, target, a)
  {
    if ds != [] {
      SentSinceLater(ds[..|ds| - 1], target, a, b);
    }
  }

  /** Old rows are judged by their own alerts, so alerts added later change nothing. */
  ghost predicate Extends(alerts: Alerts, more: Alerts, ds: seq<Delivery>) {
    && (forall a | a in alerts :: a in more && more[a] == alerts[a])
    && (forall q | 0 <= q < |ds| :: ds[q].alert in alerts)
  }

  lemma {:induction false} RateMoreAlerts(alerts: Alerts, more: Alerts, ds: seq<Delivery>)
    requires Extends(alerts, more, ds) && RateLog(alerts, ds)
    ensures RateLog(more, ds)
  {
    if ds != [] {
      RateMoreAlerts(alerts, more, ds[..|ds| - 1]);
    }
  }

  lemma {:induction false} GapMoreAlerts(alerts: Alerts, more: Alerts, ds: seq<Delivery>)
    requires Extends(alerts, more, ds) && GapLog(alerts, ds)
    ensures GapLog(more, ds)
  {
    if ds != [] {
      GapMoreAlerts(alerts, more, ds[..|ds| - 1]);
    }
  }

  lemma RateAppend(alerts: Alerts, ds: seq<Delivery>, d: Delivery)
    requires RateLog(alerts, ds) && RateRow(alerts, ds, d)
    ensures RateLog(alerts, ds + [d])
  {
    assert (ds + [d])[..|ds|] == ds;
  }

  lemma GapAppend(alerts: Alerts, ds: seq<Delivery>, d: Delivery)
    requires GapLog(alerts, ds) && GapRow(alerts, ds, d)
    ensures GapLog(alerts, ds + [d])
  {
    assert (ds + [d])[..|ds|] == ds;
  }

  lemma NewRowSafe(s: State)
    requires CheckedOk(s) && Enabled(s, Record)
    ensures
      var d := Step(s, Record).db.deliveries[|s.db.deliveries|];
      RateRow(s.db.alerts, s.db.deliveries, d) && GapRow(s.db.alerts, s.db.deliveries, d)
  {
  }

  lemma LogKept(s: State, l: Label)
    requires IdsOk(s.db) && Limits(s) && Enabled(s, l)
    ensures RateLog(Step(s, l).db.alerts, Step(s, l).db.deliveries)
    ensures GapLog(Step(s, l).db.alerts, Step(s, l).db.deliveries)
  {
    AlertsGrow(s, l);
    RowsAppended(s, l);
    if l.Record? {
      RowTime(s, l);
      NewRowSafe(s);
      RateAppend(s.db.alerts, s.db.deliveries, Step(s, l).db.deliveries[|s.db.deliveries|]);
      GapAppend(s.db.alerts, s.db.deliveries, Step(s, l).db.deliveries[|s.db.deliveries|]);
    } else {
      RateMoreAlerts(s.db.alerts, Step(s, l).db.alerts, s.db.deliveries);
      GapMoreAlerts(s.db.alerts, Step(s, l).db.alerts, s.db.deliveries);
    }
  }

  lemma OrderKept(s: State, l: Label)
    requires InOrder(s.db.deliveries, s.db.now) && Enabled(s, l)
    ensures InOrder(Step(s, l).db.deliveries, Step(s, l).db.now)
  {
    RowsAppended(s, l);
    RowTime(s, l);
  }

  lemma RowTime(s: State, l: Label)
    requires Enabled(s, l)
    ensures s.db.now <= Step(s, l).db.now
    ensures l.Record? ==>
      var ds := Step(s, l).db.deliveries;
      ds[|ds| - 1].at == s.db.now && Step(s, l).db.now == s.db.now && Step(s, l).db.alerts == s.db.alerts
      && ds[|ds| - 1].alert == s.proc.it.alert && ds[|ds| - 1].target == s.proc.it.target
      && (ds[|ds| - 1].status.SentRow? <==> s.proc.stage.Delivered?)
  {
  }

  lemma RowsKnownKept(s: State, l: Label)
    requires Inv(s) && RowsKnown(s.db) && Enabled(s, l)
    ensures RowsKnown(Step(s, l).db)
  {
    GrowsStep(s, l);
    RowsAppended(s, l);
    RowTime(s, l);
    if l.Record? {
      assert AccountOk(AccountOf(s, s.proc.it.id), s.log.nextToken);
    }
  }

  lemma WitnessKept(t: Tables, t': Tables, hits: Hits, hits': Hits, i: nat, alert: nat, target: Option<Target>)
    requires Witnessed(t, hits, i, alert, target) && Grows(t, t')
    requires i in hits' && hits'[i] == hits[i]
    ensures Witnessed(t', hits', i, alert, target)
  {
    var q :| 0 <= q < |t.deliveries| && SentTo(t.deliveries[q], target.value)
             && SameKey(t.alerts, t.deliveries[q].alert, alert) && t.deliveries[q].at >= hits[i] - DEDUP_WINDOW_SECS;
    assert SentTo(t'.deliveries[q], target.value) && SameKey(t'.alerts, t'.deliveries[q].alert, alert);
  }

  /** While no row is written, a passed check stays passed: the windows only slide forward. */
  lemma CheckStaysPassed(t: Tables, t': Tables, hits: Hits, it: DueIntent, st: Stage)
    requires CheckedAs(t, hits, it, st) && Grows(t, t') && t'.deliveries == t.deliveries && RowsKnown(t)
    ensures CheckedAs(t', hits, it, st)
  {
    if it.target.Some? {
      SentSinceLater(t.deliveries, it.target.value, t.now - HOUR_SECS, t'.now - HOUR_SECS);
    }
    if Witnessed(t, hits, it.id, it.alert, it.target) {
      WitnessKept(t, t', hits, hits, it.id, it.alert, it.target);
    }
  }

  lemma CheckPasses(s: State, l: Label)
    requires CheckedOk(s) && Check(l) && Enabled(s, l)
    ensures CheckedOk(Step(s, l))
  {
  }

  lemma RecordedNeedsNoCheck(t: Tables, t': Tables, hits: Hits, it: DueIntent, st: Stage)
    requires CheckedAs(t, hits, it, st) && Grows(t, t') && st in {Suppressing, Throttled, Delivered, Refused}
    ensures CheckedAs(t', hits, it, Recorded(it, st).1)
  {
    if st.Suppressing? {
      WitnessKept(t, t', hits, hits, it.id, it.alert, it.target);
    }
  }

  lemma StageMoves(s: State, l: Label)
    requires Enabled(s, l) && !Check(l) && Step(s, l).proc.Working?
    ensures Step(s, l).log.dedupHits == s.log.dedupHits
    ensures var p, p' := s.proc, Step(s, l).proc;
      || (Environment(l) && p' == p)
      || p'.stage in {Claimed, Refused, Closing(RetryInternal)}
      || (p.Working? && p'.it == p.it &&
            ( (l.StartAttempt? && p.stage.Ready? && p'.stage.Started?)
            || (l.Send? && p.stage.Started? && p'.stage.Delivered?)
            || (l.Record? && p'.stage == Recorded(p.it, p.stage).1)))
  {
  }

  lemma CheckedKept(s: State, l: Label)
    requires Inv(s) && RowsKnown(s.db) && CheckedOk(s) && Enabled(s, l)
    ensures CheckedOk(Step(s, l))
  {
    if Check(l) {
      CheckPasses(s, l);
    } else if Step(s, l).proc.Working? {
      var t, t', hits := s.db, Step(s, l).db, s.log.dedupHits;
      GrowsStep(s, l);
      RowsAppended(s, l);
      WorkedAlertKnown(s, l);
      StageMoves(s, l);
      if l.Record? {
        RecordedNeedsNoCheck(t, t', hits, s.proc.it, s.proc.stage);
      } else if s.proc.Working? {
        CheckStaysPassed(t, t', hits, s.proc.it, s.proc.stage);
      }
    }
  }

  lemma WorkedAlertKnown(s: State, l: Label)
    requires Inv(s) && Enabled(s, l) && Step(s, l).proc.Working?
    ensures Step(s, l).proc.it.alert in Step(s, l).db.alerts
  {
    StepKeeps(s, l);
    var s' := Step(s, l);
    assert AccountOk(AccountOf(s', s'.proc.it.id), s'.log.nextToken);
  }

  /** A row becomes suppressed only by the closing statement of the suppressed branch. */
  lemma SuppressedHow(s: State, l: Label, i: nat)
    requires Inv(s) && Enabled(s, l) && i in Step(s, l).db.intents
    requires Step(s, l).db.intents[i].outcome == Some(Suppressed)
    ensures (i in s.db.intents && s.db.intents[i].outcome == Some(Suppressed))
         || (i in s.db.intents && s.proc.Working? && s.proc.it.id == i && s.proc.stage == Closing(SettleSuppressed))
  {
    FocusKnown(s, l);
    if i !in s.db.intents {
      OnlyMaterializeCreates(s, l, i);
    } else if Focus(s, l) != Some(i) {
      RowElsewhere(s, l, i);
    } else {
      SuppressedHowFocus(s, l, i);
    }
  }

  lemma SuppressedHowFocus(s: State, l: Label, i: nat)
    requires Enabled(s, l) && i in s.db.intents && Focus(s, l) == Some(i) && i in Step(s, l).db.intents
    requires Step(s, l).db.intents[i].outcome == Some(Suppressed)
    ensures s.db.intents[i].outcome == Some(Suppressed) || (s.proc.Working? && s.proc.stage == Closing(SettleSuppressed))
  {
  }

  lemma HitsKept(s: State, l: Label, i: nat)
    requires Enabled(s, l) && i in s.log.dedupHits && (l.CheckDedup? ==> s.proc.it.id != i)
    ensures i in Step(s, l).log.dedupHits && Step(s, l).log.dedupHits[i] == s.log.dedupHits[i]
  {
  }

  lemma SuppressedKept(s: State, l: Label)
    requires Inv(s) && CheckedOk(s) && SuppressedOk(s) && Enabled(s, l)
    ensures SuppressedOk(Step(s, l))
  {
    var t, t' := s.db, Step(s, l).db;
    GrowsStep(s, l);
    forall i | i in t'.intents && t'.intents[i].outcome == Some(Suppressed)
      ensures Witnessed(t', Step(s, l).log.dedupHits, i, t'.intents[i].alert, t'.intents[i].target)
    {
      SuppressedHow(s, l, i);
      assert SameIdentity(t.intents[i], t'.intents[i]);
      assert AccountOk(AccountOf(s, i), s.log.nextToken);
      HitsKept(s, l, i);
      WitnessKept(t, t', s.log.dedupHits, Step(s, l).log.dedupHits, i, t.intents[i].alert, t.intents[i].target);
    }
  }

  lemma StepLimits(s: State, l: Label)
    requires Inv(s) && Limits(s) && Enabled(s, l)
    ensures Limits(Step(s, l))
  {
    LogKept(s, l);
    OrderKept(s, l);
    RowsKnownKept(s, l);
    CheckedKept(s, l);
    SuppressedKept(s, l);
  }

  lemma {:induction false} RunLimits(s: State, ls: seq<Label>)
    requires Inv(s) && Limits(s) && Runs(s, ls)
    ensures Limits(After(s, ls))
    decreases |ls|
  {
    if ls == [] {
    } else {
      StepKeeps(s, ls[0]);
      StepLimits(s, ls[0]);
      RunLimits(Step(s, ls[0]), ls[1..]);
    }
  }

  // ---- what the windows mean for every run ----

  /** Paced sent rows to a target created in [from, to]. */
  function PacedBetween(alerts: Alerts, ds: seq<Delivery>, target: Target, from: Time, to: Time): nat {
    if ds == [] then 0 else
      var d := ds[|ds| - 1];
      PacedBetween(alerts, ds[..|ds| - 1], target, from, to)
      + (if Paced(alerts, d) && d.target == Some(target) && from <= d.at <= to then 1 else 0)
  }

  lemma {:induction false} PacedAreSent(alerts: Alerts, ds: seq<Delivery>, target: Target, from: Time, to: Time)
    ensures PacedBetween(alerts, ds, target, from, to) <= SentSince(ds, target, from)
  {
    if ds != [] {
      PacedAreSent(alerts, ds[..|ds| - 1], target, from, to);
    }
  }

  lemma {:induction false} WindowBound(alerts: Alerts, ds: seq<Delivery>, target: Target, from: Time)
    requires RateLog(alerts, ds)
    ensures PacedBetween(alerts, ds, target, from, from + HOUR_SECS) <= RATE_LIMIT_PER_HOUR
  {
    if ds != [] {
      var d, before := ds[|ds| - 1], ds[..|ds| - 1];
      WindowBound(alerts, before, target, from);
      if Paced(alerts, d) && d.target == Some(target) && from <= d.at <= from + HOUR_SECS {
        PacedAreSent(alerts, before, target, from, from + HOUR_SECS);
        SentSinceLater(before, target, d.at - HOUR_SECS, from);
      }
    }
  }

  lemma {:induction false} GapBound(alerts: Alerts, ds: seq<Delivery>, p: nat, q: nat, target: Target)
    requires GapLog(alerts, ds) && p < q < |ds|
    requires Paced(alerts, ds[q]) && ds[q].target == Some(target)
    requires SentTo(ds[p], target) && SameKey(alerts, ds[p].alert, ds[q].alert)
    ensures ds[p].at < ds[q].at - DEDUP_WINDOW_SECS
  {
    var before := ds[..|ds| - 1];
    if q < |ds| - 1 {
      GapBound(alerts, before, p, q, target);
    } else {
      assert before[p] == ds[p];
    }
  }

  lemma InitialLimits(s: State)
    requires Initial(s)
    ensures Limits(s)
  {
  }

  lemma ReachedLimits(s0: State, ls: seq<Label>, s: State)
    requires Reached(s0, ls, s)
    ensures Inv(s) && Limits(s)
  {
    InitialInv(s0);
    InitialLimits(s0);
    RunKeeps(s0, ls);
    RunLimits(s0, ls);
  }

  /** However the run went, no hour holds more than twenty paced messages to one target. */
  lemma HourlyLimit(s0: State, ls: seq<Label>, s: State, target: Target, from: Time)
    requires Reached(s0, ls, s)
    ensures PacedBetween(s.db.alerts, s.db.deliveries, target, from, from + HOUR_SECS) <= RATE_LIMIT_PER_HOUR
  {
    ReachedLimits(s0, ls, s);
    WindowBound(s.db.alerts, s.db.deliveries, target, from);
  }

  /** A paced message follows an equal one to the same target by more than ten minutes. */
  lemma DedupGap(s0: State, ls: seq<Label>, s: State, p: nat, q: nat, target: Target)
    requires Reached(s0, ls, s) && p < q < |s.db.deliveries|
    requires Paced(s.db.alerts, s.db.deliveries[q]) && s.db.deliveries[q].target == Some(target)
    requires SentTo(s.db.deliveries[p], target) && SameKey(s.db.alerts, s.db.deliveries[p].alert, s.db.deliveries[q].alert)
    ensures s.db.deliveries[p].at < s.db.deliveries[q].at - DEDUP_WINDOW_SECS
  {
    ReachedLimits(s0, ls, s);
    GapBound(s.db.alerts, s.db.deliveries, p, q, target);
  }

  /**
   Nothing is suppressed unless, at the check, a message with the same key had been recorded as sent
   to the same target within the last ten minutes, and for another intent.
   */
  lemma SuppressedHasWitness(s0: State, ls: seq<Label>, s: State, i: nat)
    requires Reached(s0, ls, s) && i in s.db.intents && s.db.intents[i].outcome == Some(Suppressed)
    ensures s.db.intents[i].target.Some? && i in s.log.dedupHits
    ensures exists q | 0 <= q < |s.db.deliveries| ::
      SentTo(s.db.deliveries[q], s.db.intents[i].target.value)
      && SameKey(s.db.alerts, s.db.deliveries[q].alert, s.db.intents[i].alert)
      && s.db.deliveries[q].at >= s.log.dedupHits[i] - DEDUP_WINDOW_SECS
      && s.db.deliveries[q].intent != i
  {
    ReachedLimits(s0, ls, s);
    var t, hits := s.db, s.log.dedupHits;
    assert Witnessed(t, hits, i, t.intents[i].alert, t.intents[i].target);
    var q :| 0 <= q < |t.deliveries| && SentTo(t.deliveries[q], t.intents[i].target.value)
             && SameKey(t.alerts, t.deliveries[q].alert, t.intents[i].alert)
             && t.deliveries[q].at >= hits[i] - DEDUP_WINDOW_SECS;
    assert AccountOk(AccountOf(s, i), s.log.nextToken);
    if t.deliveries[q].intent == i {
      SentRowCounted(t.deliveries, q);
    }
  }

  lemma {:induction false} SentRowCounted(ds: seq<Delivery>, q: nat)
    requires q < |ds| && ds[q].status.SentRow?
    ensures SentRows(ds, ds[q].intent) >= 1
  {
    if q < |ds| - 1 {
      assert ds[..|ds| - 1][q] == ds[q];
      SentRowCounted(ds[..|ds| - 1], q);
    }
  }
}
