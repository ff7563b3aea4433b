/**
 The hourly limit and the de-duplication gap while retention runs beside the dispatcher, over an archive that forgets
 nothing: both hold as long as no deletion takes an alert with a message inside the window, which can be looked up
 before the deletion.
 */
module RetentionLimits {
  import opened Options
  import opened Ranking
  import opened AlertTables
  import opened AlertProtocol
  import opened AlertSafety
  import opened AlertLimits
  import opened AlertRetention

  // ---- the archive ----

  /** Every alert and every delivery row ever inserted. */
  datatype Archive = Archive(alerts: Alerts, rows: seq<Delivery>)

  /** The row a recording stage inserts. */
  function NewRow(s: State): Delivery
    requires s.proc.Working?
  {
    Delivery(s.proc.it.id, s.proc.it.alert, s.proc.it.target, Recorded(s.proc.it, s.proc.stage).0, s.db.now)
  }

  ghost function Noted(ar: Archive, s: State, created: nat -> int, days: nat, act: Act): Archive
    requires Possible(s, created, days, act)
  {
    match act
    case Dispatch(l) => Archive(ar.alerts + Step(s, l).db.alerts, if l.Record? then ar.rows + [NewRow(s)] else ar.rows)
    case Prune(_) => ar
  }

  ghost function Archived(ar: Archive, s: State, created: nat -> int, days: nat, acts: seq<Act>): Archive
    requires Interleaved(s, created, days, acts)
    decreases |acts|
  {
    if acts == [] then ar
    else
      Archived(Noted(ar, s, created, days, acts[0]), Do(s, created, days, acts[0]), created, days, acts[1..])
  }

  function Begun(s: State): Archive { Archive(s.db.alerts, s.db.deliveries) }

  // ---- the guard of a deletion ----

  /** One of these alerts has a message inside the last `window` seconds. */
  predicate TakesRecent(t: Tables, gone: set<nat>, window: nat) {
    exists q | 0 <= q < |t.deliveries| ::
      t.deliveries[q].status.SentRow? && t.deliveries[q].alert in gone && t.deliveries[q].at >= t.now - window
  }

  ghost predicate Spares(s: State, created: nat -> int, days: nat, acts: seq<Act>, window: nat)
    requires Interleaved(s, created, days, acts)
    decreases |acts|
  {
    acts == []
    || ((acts[0].Prune? ==> !TakesRecent(s.db, AsSet(acts[0].batch), window))
        && Spares(Do(s, created, days, acts[0]), created, days, acts[1..], window))
  }

  // ---- what the tables still hold of the archive ----

  function Lost(t: Tables, ar: Archive): set<nat> { ar.alerts.Keys - t.alerts.Keys }

  /** The tables are the archive without the lost alerts, whose messages all lie outside the window. */
  ghost predicate Recalls(t: Tables, ar: Archive, window: nat) {
    && (forall a | a in t.alerts :: a in ar.alerts && ar.alerts[a] == t.alerts[a])
    && (forall a | a in ar.alerts :: a < t.nextAlert)
    && (forall q | 0 <= q < |ar.rows| :: ar.rows[q].alert in ar.alerts)
    && t.deliveries == RowsOfOthers(ar.rows, Lost(t, ar))
    && (forall q | 0 <= q < |ar.rows| && ar.rows[q].status.SentRow? && ar.rows[q].alert in Lost(t, ar) ::
          ar.rows[q].at < t.now - window)
  }

  lemma {:induction false} LostInTurn(ds: seq<Delivery>, gone: set<nat>, more: set<nat>)
    ensures RowsOfOthers(RowsOfOthers(ds, gone), more) == RowsOfOthers(ds, gone + more)
  {
    if ds != [] {
      var front, last := ds[..|ds| - 1], ds[|ds| - 1];
      LostInTurn(front, gone, more);
      OthersAppend(RowsOfOthers(front, gone), last, more);
    }
  }

  lemma {:induction false} NothingLost(ds: seq<Delivery>)
    ensures RowsOfOthers(ds, {}) == ds
  {
    if ds != [] {
      NothingLost(ds[..|ds| - 1]);
    }
  }

  /** The lost alerts stay lost: ids are not handed out twice. */
  lemma LostSame(s: State, ar: Archive, created: nat -> int, days: nat, l: Label)
    requires IdsOk(s.db) && Enabled(s, l)
    requires forall a | a in s.db.alerts :: a in ar.alerts && ar.alerts[a] == s.db.alerts[a]
    requires forall a | a in ar.alerts :: a < s.db.nextAlert
    ensures
      var s', ar' := Step(s, l), Noted(ar, s, created, days, Dispatch(l));
      && Lost(s'.db, ar') == Lost(s.db, ar) && Extends(ar.alerts, ar'.alerts, [])
      && (forall a | a in s'.db.alerts :: a in ar'.alerts && ar'.alerts[a] == s'.db.alerts[a])
      && (forall a | a in ar'.alerts :: a < s'.db.nextAlert)
  {
    AlertsGrow(s, l);
    var s', ar' := Step(s, l), Noted(ar, s, created, days, Dispatch(l));
    forall a | a in ar.alerts ensures a in ar'.alerts && ar'.alerts[a] == ar.alerts[a] {
      if a in s'.db.alerts { assert a in s.db.alerts; }
    }
    forall a ensures a in Lost(s'.db, ar') <==> a in Lost(s.db, ar) {
    }
  }

  lemma WorkKnown(s: State)
    requires Inv(s) && s.proc.Working?
    ensures s.proc.it.alert in s.db.alerts
  {
    assert AccountOk(AccountOf(s, s.proc.it.id), s.log.nextToken);
  }

  lemma RowRecalled(t: Tables, ar: Archive, d: Delivery, window: nat)
    requires Recalls(t, ar, window) && d.alert in t.alerts
    ensures Recalls(t.(deliveries := t.deliveries + [d]), ar.(rows := ar.rows + [d]), window)
  {
    OthersAppend(ar.rows, d, Lost(t, ar));
    assert Lost(t.(deliveries := t.deliveries + [d]), ar.(rows := ar.rows + [d])) == Lost(t, ar);
  }

  lemma RecordRecalls(s: State, ar: Archive, created: nat -> int, days: nat, window: nat)
    requires Inv(s) && Recalls(s.db, ar, window) && Enabled(s, Record)
    ensures Recalls(Step(s, Record).db, Noted(ar, s, created, days, Dispatch(Record)), window)
  {
    var d := NewRow(s);
    WorkKnown(s);
    RowRecalled(s.db, ar, d, window);
    assert Step(s, Record).db == s.db.(deliveries := s.db.deliveries + [d]);
    assert ar.alerts + s.db.alerts == ar.alerts;
  }

  lemma DispatchRecalls(s: State, ar: Archive, created: nat -> int, days: nat, l: Label, window: nat)
    requires Inv(s) && Recalls(s.db, ar, window) && Enabled(s, l)
    ensures Recalls(Step(s, l).db, Noted(ar, s, created, days, Dispatch(l)), window)
  {
    if l.Record? {
      RecordRecalls(s, ar, created, days, window);
    } else {
      LostSame(s, ar, created, days, l);
      RowTime(s, l);
      RowsAppended(s, l);
    }
  }

  lemma PruneRecalls(s: State, ar: Archive, created: nat -> int, days: nat, batch: seq<nat>, window: nat)
    requires Recalls(s.db, ar, window) && IsPruned(s.db, created, days, batch) && !TakesRecent(s.db, AsSet(batch), window)
    ensures Recalls(DeleteAlerts(s.db, AsSet(batch)), ar, window)
  {
    var s', gone := s.(db := DeleteAlerts(s.db, AsSet(batch))), AsSet(batch);
    forall a | a in gone ensures a in s.db.alerts { PrunedMember(s.db, created, days, batch, a); }
    assert Lost(s'.db, ar) == Lost(s.db, ar) + gone;
    LostInTurn(ar.rows, Lost(s.db, ar), gone);
    forall q | 0 <= q < |ar.rows| && ar.rows[q].status.SentRow? && ar.rows[q].alert in gone
      ensures ar.rows[q].at < s.db.now - window
    {
      RowsKept(ar.rows, Lost(s.db, ar), ar.rows[q]);
      var p :| 0 <= p < |s.db.deliveries| && s.db.deliveries[p] == ar.rows[q];
    }
  }

  // ---- the answers of the checks are those of the archive ----

  lemma SameCount(s: State, ar: Archive, target: Target, since: Time)
    requires Recalls(s.db, ar, HOUR_SECS) && since >= s.db.now - HOUR_SECS
    ensures SentSince(s.db.deliveries, target, since) == SentSince(ar.rows, target, since)
  {
    CountKeptIff(ar.rows, Lost(s.db, ar), target, since);
  }

  lemma SameEquals(s: State, ar: Archive, alert: nat, target: Target)
    requires Recalls(s.db, ar, DEDUP_WINDOW_SECS) && alert in s.db.alerts
    ensures EqualSince(ar.alerts, ar.rows, alert, target, s.db.now - DEDUP_WINDOW_SECS)
       <==> RecentlyDelivered(s.db, alert, target)
  {
    var since := s.db.now - DEDUP_WINDOW_SECS;
    if EqualSince(ar.alerts, ar.rows, alert, target, since) {
      var q :| 0 <= q < |ar.rows| && SentTo(ar.rows[q], target) && SameKey(ar.alerts, ar.rows[q].alert, alert)
               && ar.rows[q].at >= since;
      RowsKept(ar.rows, Lost(s.db, ar), ar.rows[q]);
      var p :| 0 <= p < |s.db.deliveries| && s.db.deliveries[p] == ar.rows[q];
    }
    if RecentlyDelivered(s.db, alert, target) {
      var p :| 0 <= p < |s.db.deliveries| && SentTo(s.db.deliveries[p], target)
               && SameKey(s.db.alerts, s.db.deliveries[p].alert, alert) && s.db.deliveries[p].at >= since;
      RowsKept(ar.rows, Lost(s.db, ar), s.db.deliveries[p]);
      var q :| 0 <= q < |ar.rows| && ar.rows[q] == s.db.deliveries[p];
    }
  }

  // ---- a passed check stays passed, in the archive ----

  /** The message in hand is subject to the limits. */
  predicate PacedWork(s: State, ar: Archive) {
    s.proc.Working? && s.proc.it.target.Some? && s.proc.it.alert in ar.alerts && !ar.alerts[s.proc.it.alert].Immediate()
  }

  predicate PastRate(stage: Stage) { stage.Admitted? || stage.Ready? || stage.Started? || stage.Delivered? }

  predicate PastGap(stage: Stage) { stage.Fresh? || PastRate(stage) }

  ghost predicate UnderLimit(s: State, ar: Archive)
    requires PacedWork(s, ar)
  {
    SentSince(ar.rows, s.proc.it.target.value, s.db.now - HOUR_SECS) < RATE_LIMIT_PER_HOUR
  }

  ghost predicate RateChecked(s: State, ar: Archive) {
    PacedWork(s, ar) && PastRate(s.proc.stage) ==> UnderLimit(s, ar)
  }

  ghost predicate GapChecked(s: State, ar: Archive) {
    PacedWork(s, ar) && PastGap(s.proc.stage) ==>
      !EqualSince(ar.alerts, ar.rows, s.proc.it.alert, s.proc.it.target.value, s.db.now - DEDUP_WINDOW_SECS)
  }

  /** Where the work in hand comes from when it has passed a check already. */
  lemma PassedBefore(s: State, l: Label)
    requires Enabled(s, l) && Step(s, l).proc.Working? && PastGap(Step(s, l).proc.stage)
    ensures s.proc.Working? && Step(s, l).proc.it == s.proc.it && !l.Record?
    ensures var st, st' := s.proc.stage, Step(s, l).proc.stage;
      || st == st' || (l.CheckDedup? && st.Unsent? && st'.Fresh?) || (l.CheckRate? && st.Fresh? && st'.Admitted?)
      || (PastRate(st) && PastRate(st'))
  {
    if !Check(l) { StageMoves(s, l); }
  }

  lemma ShorterWindow(s: State, ar: Archive, window: nat, shorter: nat)
    requires Recalls(s.db, ar, window) && shorter <= window
    ensures Recalls(s.db, ar, shorter)
  {
  }

  /** A paced message past a check was in hand before the step, and the archive's rows are the same. */
  lemma WorkStays(s: State, ar: Archive, created: nat -> int, days: nat, l: Label)
    requires Inv(s) && Recalls(s.db, ar, 0) && Enabled(s, l)
    requires PacedWork(Step(s, l), Noted(ar, s, created, days, Dispatch(l)))
    requires PastGap(Step(s, l).proc.stage)
    ensures PacedWork(s, ar) && Step(s, l).proc.it == s.proc.it && s.db.now <= Step(s, l).db.now
    ensures Noted(ar, s, created, days, Dispatch(l)).rows == ar.rows
    ensures Extends(ar.alerts, Noted(ar, s, created, days, Dispatch(l)).alerts, ar.rows)
  {
    PassedBefore(s, l);
    WorkKnown(s);
    LostSame(s, ar, created, days, l);
    RowTime(s, l);
  }

  lemma RatePassed(s: State, ar: Archive)
    requires Inv(s) && Recalls(s.db, ar, HOUR_SECS) && Enabled(s, CheckRate) && PacedWork(s, ar)
    requires Step(s, CheckRate).proc.stage.Admitted?
    ensures UnderLimit(s, ar)
  {
    WorkKnown(s);
    SameCount(s, ar, s.proc.it.target.value, s.db.now - HOUR_SECS);
    assert !OverRateLimit(s.db, s.proc.it.target.value);
  }

  /** The rest of a paced attempt keeps its rows, and the window only slides forward. */
  lemma RateStays(s: State, ar: Archive, s': State, ar': Archive)
    requires PacedWork(s, ar) && PacedWork(s', ar') && UnderLimit(s, ar)
    requires s'.proc.it == s.proc.it && ar'.rows == ar.rows && s.db.now <= s'.db.now
    ensures UnderLimit(s', ar')
  {
    SentSinceLater(ar.rows, s.proc.it.target.value, s.db.now - HOUR_SECS, s'.db.now - HOUR_SECS);
  }

  lemma RateUnder(s: State, ar: Archive, l: Label)
    requires Inv(s) && Recalls(s.db, ar, HOUR_SECS) && RateChecked(s, ar) && Enabled(s, l)
    requires PacedWork(s, ar) && Step(s, l).proc.Working? && PastRate(Step(s, l).proc.stage)
    ensures UnderLimit(s, ar)
  {
    PassedBefore(s, l);
    if !PastRate(s.proc.stage) { RatePassed(s, ar); }
  }

  lemma RateStaysChecked(s: State, ar: Archive, created: nat -> int, days: nat, l: Label)
    requires Inv(s) && Recalls(s.db, ar, HOUR_SECS) && RateChecked(s, ar) && Enabled(s, l)
    ensures RateChecked(Step(s, l), Noted(ar, s, created, days, Dispatch(l)))
  {
    var s', ar' := Step(s, l), Noted(ar, s, created, days, Dispatch(l));
    if PacedWork(s', ar') && PastRate(s'.proc.stage) {
      ShorterWindow(s, ar, HOUR_SECS, 0);
      WorkStays(s, ar, created, days, l);
      RateUnder(s, ar, l);
      RateStays(s, ar, s', ar');
    }
  }

  lemma EqualSinceLater(ar: Archive, ar': Archive, alert: nat, target: Target, a: Time, b: Time)
    requires ar'.rows == ar.rows && Extends(ar.alerts, ar'.alerts, ar.rows) && alert in ar.alerts && a <= b
    ensures EqualSince(ar'.alerts, ar'.rows, alert, target, b) ==> EqualSince(ar.alerts, ar.rows, alert, target, a)
  {
    if EqualSince(ar'.alerts, ar'.rows, alert, target, b) {
      var q :| 0 <= q < |ar.rows| && SentTo(ar.rows[q], target) && SameKey(ar'.alerts, ar.rows[q].alert, alert)
               && ar.rows[q].at >= b;
      assert SameKey(ar.alerts, ar.rows[q].alert, alert);
    }
  }

  lemma GapPassed(s: State, ar: Archive)
    requires Inv(s) && Recalls(s.db, ar, DEDUP_WINDOW_SECS) && Enabled(s, CheckDedup) && PacedWork(s, ar)
    requires Step(s, CheckDedup).proc.stage.Fresh?
    ensures !EqualSince(ar.alerts, ar.rows, s.proc.it.alert, s.proc.it.target.value, s.db.now - DEDUP_WINDOW_SECS)
  {
    WorkKnown(s);
    SameEquals(s, ar, s.proc.it.alert, s.proc.it.target.value);
    assert !RecentlyDelivered(s.db, s.proc.it.alert, s.proc.it.target.value);
  }

  lemma GapStaysChecked(s: State, ar: Archive, created: nat -> int, days: nat, l: Label)
    requires Inv(s) && Recalls(s.db, ar, DEDUP_WINDOW_SECS) && GapChecked(s, ar) && Enabled(s, l)
    ensures GapChecked(Step(s, l), Noted(ar, s, created, days, Dispatch(l)))
  {
    var s', ar' := Step(s, l), Noted(ar, s, created, days, Dispatch(l));
    if PacedWork(s', ar') && PastGap(s'.proc.stage) {
      ShorterWindow(s, ar, DEDUP_WINDOW_SECS, 0);
      WorkStays(s, ar, created, days, l);
      assert PastGap(s.proc.stage) || (l.CheckDedup? && s.proc.stage.Unsent?) by { PassedBefore(s, l); }
      if !PastGap(s.proc.stage) { GapPassed(s, ar); }
      EqualSinceLater(ar, ar', s.proc.it.alert, s.proc.it.target.value,
                      s.db.now - DEDUP_WINDOW_SECS, s'.db.now - DEDUP_WINDOW_SECS);
    }
  }

  // ---- both limits over every run ----

  ghost predicate RateSound(s: State, ar: Archive) {
    Inv(s) && RowsKnown(s.db) && Recalls(s.db, ar, HOUR_SECS) && RateChecked(s, ar) && RateLog(ar.alerts, ar.rows)
  }

  ghost predicate GapSound(s: State, ar: Archive) {
    Inv(s) && RowsKnown(s.db) && Recalls(s.db, ar, DEDUP_WINDOW_SECS) && GapChecked(s, ar) && GapLog(ar.alerts, ar.rows)
  }

  lemma RateRecorded(s: State, ar: Archive)
    requires RateChecked(s, ar) && Enabled(s, Record)
    ensures RateRow(ar.alerts, ar.rows, NewRow(s))
  {
  }

  lemma RateLogKept(s: State, ar: Archive, created: nat -> int, days: nat, l: Label)
    requires RateSound(s, ar) && Enabled(s, l)
    ensures var ar' := Noted(ar, s, created, days, Dispatch(l)); RateLog(ar'.alerts, ar'.rows)
  {
    var ar' := Noted(ar, s, created, days, Dispatch(l));
    LostSame(s, ar, created, days, l);
    RateMoreAlerts(ar.alerts, ar'.alerts, ar.rows);
    if l.Record? {
      RateRecorded(s, ar);
      assert ar'.alerts == ar.alerts;
      RateAppend(ar.alerts, ar.rows, NewRow(s));
    }
  }

  lemma GapLogKept(s: State, ar: Archive, created: nat -> int, days: nat, l: Label)
    requires GapSound(s, ar) && Enabled(s, l)
    ensures var ar' := Noted(ar, s, created, days, Dispatch(l)); GapLog(ar'.alerts, ar'.rows)
  {
    var ar' := Noted(ar, s, created, days, Dispatch(l));
    LostSame(s, ar, created, days, l);
    GapMoreAlerts(ar.alerts, ar'.alerts, ar.rows);
    if l.Record? {
      WorkKnown(s);
      var at := s.db.now - DEDUP_WINDOW_SECS;
      if s.proc.it.target.Some? {
        EqualSinceLater(ar, ar'.(rows := ar.rows), s.proc.it.alert, s.proc.it.target.value, at, at);
      }
      GapAppend(ar'.alerts, ar.rows, NewRow(s));
    }
  }

  lemma RateDispatch(s: State, ar: Archive, created: nat -> int, days: nat, l: Label)
    requires RateSound(s, ar) && Enabled(s, l)
    ensures RateSound(Step(s, l), Noted(ar, s, created, days, Dispatch(l)))
  {
    StepKeeps(s, l);
    RowsKnownKept(s, l);
    DispatchRecalls(s, ar, created, days, l, HOUR_SECS);
    RateStaysChecked(s, ar, created, days, l);
    RateLogKept(s, ar, created, days, l);
  }

  lemma GapDispatch(s: State, ar: Archive, created: nat -> int, days: nat, l: Label)
    requires GapSound(s, ar) && Enabled(s, l)
    ensures GapSound(Step(s, l), Noted(ar, s, created, days, Dispatch(l)))
  {
    StepKeeps(s, l);
    RowsKnownKept(s, l);
    DispatchRecalls(s, ar, created, days, l, DEDUP_WINDOW_SECS);
    GapStaysChecked(s, ar, created, days, l);
    GapLogKept(s, ar, created, days, l);
  }

  /** A deletion touches neither the work in hand, nor the clock, nor the archive. */
  lemma ChecksSurvive(s: State, t: Tables, ar: Archive)
    requires t.now == s.db.now
    ensures RateChecked(s.(db := t), ar) == RateChecked(s, ar)
    ensures GapChecked(s.(db := t), ar) == GapChecked(s, ar)
  {
  }

  lemma RatePrune(s: State, ar: Archive, created: nat -> int, days: nat, batch: seq<nat>)
    requires RateSound(s, ar) && IsPruned(s.db, created, days, batch) && !TakesRecent(s.db, AsSet(batch), HOUR_SECS)
    ensures RateSound(s.(db := DeleteAlerts(s.db, AsSet(batch))), ar)
  {
    var t := DeleteAlerts(s.db, AsSet(batch));
    assert Inv(s.(db := t)) && RowsKnown(t) by { PruneKeeps(s, created, days, batch); }
    assert Recalls(t, ar, HOUR_SECS) by { PruneRecalls(s, ar, created, days, batch, HOUR_SECS); }
    assert RateChecked(s.(db := t), ar) by { ChecksSurvive(s, t, ar); }
  }

  lemma GapPrune(s: State, ar: Archive, created: nat -> int, days: nat, batch: seq<nat>)
    requires GapSound(s, ar) && IsPruned(s.db, created, days, batch)
    requires !TakesRecent(s.db, AsSet(batch), DEDUP_WINDOW_SECS)
    ensures GapSound(s.(db := DeleteAlerts(s.db, AsSet(batch))), ar)
  {
    var t := DeleteAlerts(s.db, AsSet(batch));
    assert Inv(s.(db := t)) && RowsKnown(t) by { PruneKeeps(s, created, days, batch); }
    assert Recalls(t, ar, DEDUP_WINDOW_SECS) by { PruneRecalls(s, ar, created, days, batch, DEDUP_WINDOW_SECS); }
    assert GapChecked(s.(db := t), ar) by { ChecksSurvive(s, t, ar); }
  }

  lemma {:induction false} RateOverRun(s: State, ar: Archive, created: nat -> int, days: nat, acts: seq<Act>)
    requires RateSound(s, ar) && Interleaved(s, created, days, acts) && Spares(s, created, days, acts, HOUR_SECS)
    ensures RateSound(AfterActs(s, created, days, acts), Archived(ar, s, created, days, acts))
    decreases |acts|
  {
    if acts == [] {
    } else {
      match acts[0] {
        case Dispatch(l) => RateDispatch(s, ar, created, days, l);
        case Prune(batch) => RatePrune(s, ar, created, days, batch);
      }
      RateOverRun(Do(s, created, days, acts[0]), Noted(ar, s, created, days, acts[0]), created, days, acts[1..]);
    }
  }

  lemma {:induction false} GapOverRun(s: State, ar: Archive, created: nat -> int, days: nat, acts: seq<Act>)
    requires GapSound(s, ar) && Interleaved(s, created, days, acts) && Spares(s, created, days, acts, DEDUP_WINDOW_SECS)
    ensures GapSound(AfterActs(s, created, days, acts), Archived(ar, s, created, days, acts))
    decreases |acts|
  {
    if acts == [] {
    } else {
      match acts[0] {
        case Dispatch(l) => GapDispatch(s, ar, created, days, l);
        case Prune(batch) => GapPrune(s, ar, created, days, batch);
      }
      GapOverRun(Do(s, created, days, acts[0]), Noted(ar, s, created, days, acts[0]), created, days, acts[1..]);
    }
  }

  lemma BegunSound(s: State)
    requires Initial(s)
    ensures RateSound(s, Begun(s)) && GapSound(s, Begun(s))
  {
    InitialInv(s);
    assert Lost(s.db, Begun(s)) == {};
    NothingLost([]);
  }

  /**
   With producers, the dispatcher and retention in any interleaving: no hour holds more than twenty paced messages to one
   target, deleted rows included, if no deletion takes an alert with a message of the last hour.
   */
  lemma HourlyLimitWithRetention(s: State, created: nat -> int, days: nat, acts: seq<Act>, target: Target, from: Time)
    requires Initial(s) && Interleaved(s, created, days, acts) && Spares(s, created, days, acts, HOUR_SECS)
    ensures
      var ar := Archived(Begun(s), s, created, days, acts);
      PacedBetween(ar.alerts, ar.rows, target, from, from + HOUR_SECS) <= RATE_LIMIT_PER_HOUR
  {
    BegunSound(s);
    RateOverRun(s, Begun(s), created, days, acts);
    var ar := Archived(Begun(s), s, created, days, acts);
    WindowBound(ar.alerts, ar.rows, target, from);
  }

  /**
   And a paced message follows an equal one to the same target by more than ten minutes, deleted rows included, if no
   deletion takes an alert with a message of the last ten minutes.
   */
  lemma DedupGapWithRetention(s: State, created: nat -> int, days: nat, acts: seq<Act>, p: nat, q: nat, target: Target)
    requires Initial(s) && Interleaved(s, created, days, acts) && Spares(s, created, days, acts, DEDUP_WINDOW_SECS)
    requires
      var ar := Archived(Begun(s), s, created, days, acts);
      && p < q < |ar.rows| && Paced(ar.alerts, ar.rows[q]) && ar.rows[q].target == Some(target)
      && SentTo(ar.rows[p], target) && SameKey(ar.alerts, ar.rows[p].alert, ar.rows[q].alert)
    ensures
      var ar := Archived(Begun(s), s, created, days, acts);
      ar.rows[p].at < ar.rows[q].at - DEDUP_WINDOW_SECS
  {
    BegunSound(s);
    GapOverRun(s, Begun(s), created, days, acts);
    var ar := Archived(Begun(s), s, created, days, acts);
    GapBound(ar.alerts, ar.rows, p, q, target);
  }

  // ---- what one deletion does to the answers ----

  /** The rows that go. */
  function RowsOf(ds: seq<Delivery>, gone: set<nat>): seq<Delivery> {
    if ds == [] then []
    else
      var rest := RowsOf(ds[..|ds| - 1], gone);
      if ds[|ds| - 1].alert in gone then rest + [ds[|ds| - 1]] else rest
  }

  lemma {:induction false} CountSplits(ds: seq<Delivery>, gone: set<nat>, target: Target, since: Time)
    ensures SentSince(ds, target, since)
         == SentSince(RowsOfOthers(ds, gone), target, since) + SentSince(RowsOf(ds, gone), target, since)
  {
    if ds != [] {
      var front, last := ds[..|ds| - 1], ds[|ds| - 1];
      CountSplits(front, gone, target, since);
      SinceAppend(RowsOfOthers(front, gone), last, target, since);
      SinceAppend(RowsOf(front, gone), last, target, since);
    }
  }

  /** The rate check answers differently exactly when the limit was reached and the deletion takes more than the surplus. */
  lemma RateAnswerChangesIff(t: Tables, gone: set<nat>, target: Target)
    ensures
      var since := t.now - HOUR_SECS;
      OverRateLimit(DeleteAlerts(t, gone), target) != OverRateLimit(t, target) <==>
        RATE_LIMIT_PER_HOUR <= SentSince(t.deliveries, target, since)
          < RATE_LIMIT_PER_HOUR + SentSince(RowsOf(t.deliveries, gone), target, since)
  {
    CountSplits(t.deliveries, gone, target, t.now - HOUR_SECS);
  }

  /** A row the de-duplication check would find. */
  predicate IsEqual(t: Tables, d: Delivery, alert: nat, target: Target) {
    SentTo(d, target) && SameKey(t.alerts, d.alert, alert) && d.at >= t.now - DEDUP_WINDOW_SECS
  }

  /** The de-duplication check answers differently exactly when it found something and all it found goes. */
  lemma GapAnswerChangesIff(t: Tables, gone: set<nat>, alert: nat, target: Target)
    requires alert !in gone
    ensures
      RecentlyDelivered(DeleteAlerts(t, gone), alert, target) != RecentlyDelivered(t, alert, target) <==>
        && RecentlyDelivered(t, alert, target)
        && forall q | 0 <= q < |t.deliveries| && IsEqual(t, t.deliveries[q], alert, target) :: t.deliveries[q].alert in gone
  {
    var t' := DeleteAlerts(t, gone);
    forall q | 0 <= q < |t'.deliveries| && IsEqual(t', t'.deliveries[q], alert, target)
      ensures exists p | 0 <= p < |t.deliveries| :: IsEqual(t, t.deliveries[p], alert, target) && t.deliveries[p].alert !in gone
    {
      RowsKept(t.deliveries, gone, t'.deliveries[q]);
      var p :| 0 <= p < |t.deliveries| && t.deliveries[p] == t'.deliveries[q];
    }
    forall p | 0 <= p < |t.deliveries| && IsEqual(t, t.deliveries[p], alert, target) && t.deliveries[p].alert !in gone
      ensures exists q | 0 <= q < |t'.deliveries| :: IsEqual(t', t'.deliveries[q], alert, target)
    {
      RowsKept(t.deliveries, gone, t.deliveries[p]);
      var q :| 0 <= q < |t'.deliveries| && t'.deliveries[q] == t.deliveries[p];
    }
    assert RecentlyDelivered(t, alert, target) <==>
      exists q | 0 <= q < |t.deliveries| :: IsEqual(t, t.deliveries[q], alert, target);
    assert RecentlyDelivered(t', alert, target) <==>
      exists q | 0 <= q < |t'.deliveries| :: IsEqual(t', t'.deliveries[q], alert, target);
  }

  predicate SameCounts(t: Tables, gone: set<nat>, target: Target, window: nat) {
    SentSince(DeleteAlerts(t, gone).deliveries, target, t.now - window) == SentSince(t.deliveries, target, t.now - window)
  }

  /** And the guard is exact for the counts: it fails exactly when the count of some target changes. */
  lemma GuardIsExact(t: Tables, gone: set<nat>, window: nat)
    requires forall q | 0 <= q < |t.deliveries| && t.deliveries[q].status.SentRow? :: t.deliveries[q].target.Some?
    ensures !TakesRecent(t, gone, window) <==> forall target: Target :: SameCounts(t, gone, target, window)
  {
    forall target: Target
      ensures SameCounts(t, gone, target, window) <==> !Forgets(t.deliveries, gone, target, t.now - window)
    {
      CountKeptIff(t.deliveries, gone, target, t.now - window);
    }
    if TakesRecent(t, gone, window) {
      var q :| 0 <= q < |t.deliveries| && t.deliveries[q].status.SentRow? && t.deliveries[q].alert in gone
               && t.deliveries[q].at >= t.now - window;
      var x := t.deliveries[q].target.value;
      assert Forgets(t.deliveries, gone, x, t.now - window);
      assert !SameCounts(t, gone, x, window);
    }
  }
}
