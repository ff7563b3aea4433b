/**
 What holds after every run of the dispatcher, with interruptions at any point:
 settled rows never change again, an intent gets at most one sent row, and every message,
 attempt and failure is accounted for.
 */
module AlertSafety {
  import opened Options
  import opened Ranking
  import opened AlertTables
  import opened AlertProtocol

  // ---- the books of one intent ----

  datatype Work = Work(it: DueIntent, token: nat, stage: Stage)

  /** Everything the run knows about one intent. */
  datatype Account = Account(
    row: Intent,
    sent: nat,
    sends: nat,
    lost: nat,
    interrupted: nat,
    failures: nat,
    successes: nat,
    work: Option<Work>
  ) {
    /** A message has left and its row is not written yet. */
    function InFlight(): nat { if work.Some? && work.value.stage.Delivered? then 1 else 0 }

    function OpenAttempt(): nat { if work.Some? && InAttempt(work.value.stage) then 1 else 0 }
  }

  predicate At(s: State, i: nat) { s.proc.Working? && s.proc.it.id == i }

  function AccountOf(s: State, i: nat): Account
    requires i in s.db.intents
  {
    Account(s.db.intents[i], SentRows(s.db.deliveries, i),
            s.log.sends[i], s.log.lost[i], s.log.interrupted[i], s.log.failures[i], s.log.successes[i],
            if At(s, i) then Some(Work(s.proc.it, s.proc.token, s.proc.stage)) else None)
  }

  predicate RowShape(r: Intent, nextToken: nat) {
    && (r.state.Settled? <==> r.outcome.Some?)
    && (r.state.Settled? ==> r.token.None?)
    && (r.token.Some? ==> r.token.value < nextToken)
    && (r.target.None? <==> r.outcome == Some(NoAudience))
  }

  predicate Balanced(a: Account) {
    && a.sent <= 1
    && a.sends == a.sent + a.lost + a.InFlight()
    && a.lost <= a.interrupted
    && (a.row.state.Settled? ==> (a.row.outcome == Some(Outcome.Sent) <==> a.sent == 1))
    && a.row.attempts == a.failures + a.successes + a.interrupted + a.OpenAttempt()
    && (a.row.Open() ==> a.successes == 0 && a.failures <= MAX_DELIVERY_ATTEMPTS - 1)
    && (a.row.state.Settled? ==> a.failures + a.successes <= MAX_DELIVERY_ATTEMPTS)
    && (a.row.outcome == Some(PermanentFailure) ==> a.row.attempts >= MAX_DELIVERY_ATTEMPTS)
  }

  /** Stages at which no sent row can exist yet. */
  predicate BeforeRow(stage: Stage) {
    || stage in {Unsent, Fresh, Admitted, Ready, Started, Suppressing, Throttled, Delivered, Refused}
    || (stage.Closing? && stage.ending in {SettleSuppressed, GiveUp, RetryFailed, RetryThrottled, RetryNoMailer})
  }

  predicate WorkOk(a: Account) {
    a.work.Some? ==>
      var w := a.work.value;
      && a.row.Open() && a.row.token == Some(w.token)
      && w.it.alert == a.row.alert && w.it.target == a.row.target
      && (InAttempt(w.stage) ==> a.row.attempts == w.it.attempts + 1)
      && (InAttempt(w.stage) || w.stage == Closing(RetryInternal) || a.row.attempts == w.it.attempts)
      && (BeforeRow(w.stage) ==> a.sent == 0)
      && (w.stage in {Closing(SettleSent), Closing(SettleRecovered)} ==> a.sent == 1)
      && (w.stage == Closing(GiveUp) ==> w.it.attempts + 1 >= MAX_DELIVERY_ATTEMPTS)
      && (w.stage == Closing(RetryFailed) ==> w.it.attempts + 1 < MAX_DELIVERY_ATTEMPTS)
  }

  predicate AccountOk(a: Account, nextToken: nat) {
    RowShape(a.row, nextToken) && Balanced(a) && WorkOk(a)
  }

  // ---- the invariant ----

  ghost predicate IdsOk(t: Tables) {
    && (forall a | a in t.alerts :: a < t.nextAlert)
    && (forall i | i in t.intents :: i < t.nextIntent && t.intents[i].alert in t.alerts)
    && (forall q | 0 <= q < |t.deliveries| :: t.deliveries[q].intent in t.intents)
  }

  ghost predicate AccountsOk(s: State) {
    forall i | i in s.db.intents :: AccountOk(AccountOf(s, i), s.log.nextToken)
  }

  /** A snapshot the pass still has to work on is the row as it stands. */
  predicate Current(t: Tables, d: DueIntent) {
    d.id in t.intents && t.intents[d.id].Open() && d == Snapshot(t, d.id)
  }

  function Queue(p: Proc): seq<DueIntent> {
    match p
    case Draining(due) => due
    case Working(due, _, _, _) => due
    case _ => []
  }

  ghost predicate QueueOk(t: Tables, due: seq<DueIntent>) {
    && (forall k | 0 <= k < |due| :: Current(t, due[k]))
    && (forall j, k | 0 <= j < k < |due| :: due[j].id != due[k].id)
  }

  ghost predicate ProcOk(s: State) {
    && QueueOk(s.db, Queue(s.proc))
    && (s.proc.Working? ==>
          s.proc.it.id in s.db.intents && forall k | 0 <= k < |s.proc.due| :: s.proc.due[k].id != s.proc.it.id)
  }

  ghost predicate BatchOk(s: State) {
    s.proc.Materializing? ==>
      && Distinct(s.proc.batch)
      && forall k | 0 <= k < |s.proc.batch| :: s.proc.batch[k] in s.db.alerts && !HasIntents(s.db, s.proc.batch[k])
  }

  /** Nothing is booked on an intent that does not exist yet. */
  ghost predicate Unbooked(s: State) {
    forall i: nat | i >= s.db.nextIntent ::
      s.log.sends[i] == 0 && s.log.lost[i] == 0 && s.log.interrupted[i] == 0
      && s.log.failures[i] == 0 && s.log.successes[i] == 0
  }

  ghost predicate Inv(s: State) {
    IdsOk(s.db) && AccountsOk(s) && ProcOk(s) && BatchOk(s) && Unbooked(s)
  }

  lemma InitialInv(s: State)
    requires Initial(s)
    ensures Inv(s)
  {
  }

  // ---- counting ----

  lemma SentRowsAppend(ds: seq<Delivery>, d: Delivery, i: nat)
    ensures SentRows(ds + [d], i) == SentRows(ds, i) + (if d.status.SentRow? && d.intent == i then 1 else 0)
  {
    assert (ds + [d])[..|ds|] == ds;
  }

  lemma {:induction false} NoRowsNoCount(ds: seq<Delivery>, i: nat)
    requires forall q | 0 <= q < |ds| :: ds[q].intent != i
    ensures SentRows(ds, i) == 0
  {
    if ds != [] {
      NoRowsNoCount(ds[..|ds| - 1], i);
    }
  }

  // ---- how one label moves the accounts ----

  /** The intent a label works on; every other account stays as it is. */
  function Focus(s: State, l: Label): Option<nat> {
    if l.ClaimNext? && s.proc.Draining? && s.proc.due != [] then Some(s.proc.due[0].id)
    else if s.proc.Working? && !Environment(l) then Some(s.proc.it.id)
    else None
  }

  predicate Environment(l: Label) { l.Wait? || l.Produce? || l.EditDirectory? }

  lemma RowElsewhere(s: State, l: Label, i: nat)
    requires Enabled(s, l) && i in s.db.intents && i < s.db.nextIntent && Focus(s, l) != Some(i)
    ensures i in Step(s, l).db.intents && Step(s, l).db.intents[i] == s.db.intents[i]
  {
  }

  lemma RowsAppended(s: State, l: Label)
    requires Enabled(s, l)
    ensures var ds, ds' := s.db.deliveries, Step(s, l).db.deliveries;
            if l.Record? then |ds'| == |ds| + 1 && ds' == ds + [ds'[|ds|]] && ds'[|ds|].intent == s.proc.it.id
            else ds' == ds
  {
  }

  lemma BooksElsewhere(s: State, l: Label, i: nat)
    requires Enabled(s, l) && (s.proc.Working? ==> s.proc.it.id != i)
    ensures var h, h' := s.log, Step(s, l).log;
      h'.sends[i] == h.sends[i] && h'.lost[i] == h.lost[i] && h'.interrupted[i] == h.interrupted[i]
      && h'.failures[i] == h.failures[i] && h'.successes[i] == h.successes[i]
  {
  }

  lemma OthersUntouched(s: State, l: Label, i: nat)
    requires Enabled(s, l) && i in s.db.intents && i < s.db.nextIntent && Focus(s, l) != Some(i)
    ensures i in Step(s, l).db.intents && AccountOf(Step(s, l), i) == AccountOf(s, i)
  {
    RowElsewhere(s, l, i);
    RowsAppended(s, l);
    if l.Record? {
      SentRowsAppend(s.db.deliveries, Step(s, l).db.deliveries[|s.db.deliveries|], i);
    }
    if Environment(l) {
    } else {
      BooksElsewhere(s, l, i);
    }
  }

  predicate Check(l: Label) { l.CheckSent? || l.CheckDedup? || l.CheckRate? || l.CheckMailer? }

  lemma CheckKeepsFocus(s: State, l: Label, i: nat)
    requires i in s.db.intents && AccountOk(AccountOf(s, i), s.log.nextToken)
    requires Check(l) && Enabled(s, l) && At(s, i)
    ensures AccountOk(AccountOf(Step(s, l), i), s.log.nextToken)
  {
  }

  lemma StartKeepsFocus(s: State, i: nat)
    requires i in s.db.intents && AccountOk(AccountOf(s, i), s.log.nextToken)
    requires Enabled(s, StartAttempt) && At(s, i)
    ensures i in Step(s, StartAttempt).db.intents
    ensures AccountOk(AccountOf(Step(s, StartAttempt), i), s.log.nextToken)
  {
  }

  lemma SendKeepsFocus(s: State, ok: bool, i: nat)
    requires i in s.db.intents && AccountOk(AccountOf(s, i), s.log.nextToken)
    requires Enabled(s, Send(ok)) && At(s, i)
    ensures AccountOk(AccountOf(Step(s, Send(ok)), i), s.log.nextToken)
  {
  }

  lemma RecordKeepsFocus(s: State, i: nat)
    requires i in s.db.intents && AccountOk(AccountOf(s, i), s.log.nextToken)
    requires Enabled(s, Record) && At(s, i)
    ensures AccountOk(AccountOf(Step(s, Record), i), s.log.nextToken)
  {
    var d := Delivery(s.proc.it.id, s.proc.it.alert, s.proc.it.target, Recorded(s.proc.it, s.proc.stage).0, s.db.now);
    SentRowsAppend(s.db.deliveries, d, i);
  }

  predicate Settles(e: Ending) { e.SettleSent? || e.SettleRecovered? || e.SettleSuppressed? || e.GiveUp? }

  lemma SettleKeepsFocus(s: State, i: nat)
    requires i in s.db.intents && AccountOk(AccountOf(s, i), s.log.nextToken)
    requires Enabled(s, Close) && At(s, i)
    requires Settles(s.proc.stage.ending)
    ensures i in Step(s, Close).db.intents
    ensures AccountOk(AccountOf(Step(s, Close), i), s.log.nextToken)
  {
  }

  lemma RetryKeepsFocus(s: State, i: nat)
    requires i in s.db.intents && AccountOk(AccountOf(s, i), s.log.nextToken)
    requires Enabled(s, Close) && At(s, i)
    requires !Settles(s.proc.stage.ending)
    ensures i in Step(s, Close).db.intents
    ensures AccountOk(AccountOf(Step(s, Close), i), s.log.nextToken)
  {
  }

  lemma InterruptionKeepsFocus(s: State, l: Label, i: nat)
    requires i in s.db.intents && AccountOk(AccountOf(s, i), s.log.nextToken)
    requires (l.Fault? || l.Crash?) && Enabled(s, l) && At(s, i)
    ensures AccountOk(AccountOf(Step(s, l), i), s.log.nextToken)
  {
  }

  lemma ClaimKeepsFocus(s: State, i: nat)
    requires i in s.db.intents && AccountOk(AccountOf(s, i), s.log.nextToken)
    requires Enabled(s, ClaimNext) && s.proc.due[0] == Snapshot(s.db, i)
    ensures i in Step(s, ClaimNext).db.intents
    ensures AccountOk(AccountOf(Step(s, ClaimNext), i), Step(s, ClaimNext).log.nextToken)
  {
  }

  lemma OnlyMaterializeCreates(s: State, l: Label, i: nat)
    requires Enabled(s, l) && i !in s.db.intents && i in Step(s, l).db.intents
    requires Focus(s, l).Some? ==> Focus(s, l).value in s.db.intents
    ensures l.Materialize?
    ensures s.db.nextIntent <= i < Step(s, l).db.nextIntent
    ensures Step(s, l).db.intents[i].alert == s.proc.batch[0]
  {
  }

  lemma NewAccount(s: State, l: Label, i: nat)
    requires IdsOk(s.db) && Unbooked(s)
    requires Enabled(s, l) && l.Materialize? && i !in s.db.intents && i in Step(s, l).db.intents
    requires s.db.nextIntent <= i
    ensures AccountOk(AccountOf(Step(s, l), i), Step(s, l).log.nextToken)
  {
    NoRowsNoCount(s.db.deliveries, i);
  }

  lemma FocusKept(s: State, l: Label, i: nat)
    requires i in s.db.intents && AccountOk(AccountOf(s, i), s.log.nextToken)
    requires Enabled(s, l) && Focus(s, l) == Some(i)
    requires l.ClaimNext? ==> Current(s.db, s.proc.due[0])
    ensures i in Step(s, l).db.intents
    ensures AccountOk(AccountOf(Step(s, l), i), Step(s, l).log.nextToken)
  {
    match l
    case ClaimNext => ClaimKeepsFocus(s, i);
    case CheckSent => CheckKeepsFocus(s, l, i);
    case CheckDedup => CheckKeepsFocus(s, l, i);
    case CheckRate => CheckKeepsFocus(s, l, i);
    case CheckMailer(_) => CheckKeepsFocus(s, l, i);
    case StartAttempt => StartKeepsFocus(s, i);
    case Send(ok) => SendKeepsFocus(s, ok, i);
    case Record => RecordKeepsFocus(s, i);
    case Close =>
      if Settles(s.proc.stage.ending) {
        SettleKeepsFocus(s, i);
      } else {
        RetryKeepsFocus(s, i);
      }
    case Fault => InterruptionKeepsFocus(s, l, i);
    case Crash => InterruptionKeepsFocus(s, l, i);
    case _ =>
  }

  /** The intent a label works on exists, and a claimed one is as its snapshot says. */
  lemma FocusKnown(s: State, l: Label)
    requires ProcOk(s) && Enabled(s, l)
    ensures Focus(s, l).Some? ==> Focus(s, l).value in s.db.intents
    ensures l.ClaimNext? ==> Current(s.db, s.proc.due[0])
  {
    if l.ClaimNext? {
      assert Current(s.db, Queue(s.proc)[0]);
    }
  }

  lemma AccountKept(s: State, l: Label, i: nat)
    requires IdsOk(s.db) && AccountsOk(s) && ProcOk(s) && Unbooked(s)
    requires Enabled(s, l) && i in Step(s, l).db.intents
    ensures AccountOk(AccountOf(Step(s, l), i), Step(s, l).log.nextToken)
  {
    FocusKnown(s, l);
    if i !in s.db.intents {
      OnlyMaterializeCreates(s, l, i);
      NewAccount(s, l, i);
    } else if Focus(s, l) == Some(i) {
      FocusKept(s, l, i);
    } else {
      OthersUntouched(s, l, i);
      TokensGrow(s, l);
    }
  }

  lemma TokensGrow(s: State, l: Label)
    requires Enabled(s, l)
    ensures s.log.nextToken <= Step(s, l).log.nextToken
  {
  }

  lemma AccountsKept(s: State, l: Label)
    requires Inv(s) && Enabled(s, l)
    ensures AccountsOk(Step(s, l))
  {
    forall i | i in Step(s, l).db.intents
      ensures AccountOk(AccountOf(Step(s, l), i), Step(s, l).log.nextToken)
    {
      AccountKept(s, l, i);
    }
  }

  // ---- the tables only grow, and identities never change ----

  ghost predicate Grows(t: Tables, t': Tables) {
    && t.now <= t'.now && t.nextAlert <= t'.nextAlert && t.nextIntent <= t'.nextIntent
    && (forall a | a in t.alerts :: a in t'.alerts && t'.alerts[a] == t.alerts[a])
    && (forall a | a in t'.alerts && a !in t.alerts :: t.nextAlert <= a < t'.nextAlert)
    && (forall i | i in t.intents :: i in t'.intents && SameIdentity(t.intents[i], t'.intents[i]))
    && (forall i | i in t'.intents && i !in t.intents :: t.nextIntent <= i < t'.nextIntent)
    && t.deliveries <= t'.deliveries
  }

  predicate SameIdentity(r: Intent, r': Intent) {
    && r'.alert == r.alert && r'.target == r.target
    && (r.state.Settled? ==> r' == r)
  }

  lemma FocusIdentity(s: State, l: Label, i: nat)
    requires i in s.db.intents && Enabled(s, l) && Focus(s, l) == Some(i)
    requires s.proc.Working? || s.db.intents[i].Open()
    requires AccountOk(AccountOf(s, i), s.log.nextToken)
    ensures i in Step(s, l).db.intents && SameIdentity(s.db.intents[i], Step(s, l).db.intents[i])
  {
  }

  lemma IdentitiesKept(s: State, l: Label, i: nat)
    requires Inv(s) && Enabled(s, l) && i in s.db.intents
    ensures i in Step(s, l).db.intents && SameIdentity(s.db.intents[i], Step(s, l).db.intents[i])
  {
    if Focus(s, l) != Some(i) {
      OthersUntouched(s, l, i);
      assert AccountOf(Step(s, l), i).row == AccountOf(s, i).row;
    } else {
      FocusKnown(s, l);
      FocusIdentity(s, l, i);
    }
  }

  lemma AlertsGrow(s: State, l: Label)
    requires IdsOk(s.db) && Enabled(s, l)
    ensures var t, t' := s.db, Step(s, l).db;
      && t.now <= t'.now && t.nextAlert <= t'.nextAlert && t.deliveries <= t'.deliveries
      && (forall a | a in t.alerts :: a in t'.alerts && t'.alerts[a] == t.alerts[a])
      && (forall a | a in t'.alerts && a !in t.alerts :: t.nextAlert <= a < t'.nextAlert)
  {
  }

  lemma NextIntentGrows(s: State, l: Label)
    requires Enabled(s, l)
    ensures s.db.nextIntent <= Step(s, l).db.nextIntent
  {
  }

  lemma IntentIdsGrow(s: State, l: Label)
    requires Inv(s) && Enabled(s, l)
    ensures var t, t' := s.db, Step(s, l).db;
      && t.nextIntent <= t'.nextIntent
      && (forall i | i in t'.intents && i !in t.intents ::
            t.nextIntent <= i < t'.nextIntent && l.Materialize? && t'.intents[i].alert == s.proc.batch[0])
  {
    NextIntentGrows(s, l);
    FocusKnown(s, l);
    forall i | i in Step(s, l).db.intents && i !in s.db.intents
      ensures s.db.nextIntent <= i < Step(s, l).db.nextIntent && l.Materialize?
      ensures Step(s, l).db.intents[i].alert == s.proc.batch[0]
    {
      OnlyMaterializeCreates(s, l, i);
    }
  }

  lemma GrowsStep(s: State, l: Label)
    requires Inv(s) && Enabled(s, l)
    ensures Grows(s.db, Step(s, l).db)
  {
    AlertsGrow(s, l);
    IntentIdsGrow(s, l);
    forall i | i in s.db.intents
      ensures i in Step(s, l).db.intents && SameIdentity(s.db.intents[i], Step(s, l).db.intents[i])
    {
      IdentitiesKept(s, l, i);
    }
  }

  lemma IntentsHaveAlerts(s: State, l: Label)
    requires Inv(s) && Enabled(s, l)
    ensures forall i | i in Step(s, l).db.intents :: Step(s, l).db.intents[i].alert in Step(s, l).db.alerts
  {
    var s' := Step(s, l);
    GrowsStep(s, l);
    forall i | i in s'.db.intents
      ensures s'.db.intents[i].alert in s'.db.alerts
    {
      if i in s.db.intents {
        assert SameIdentity(s.db.intents[i], s'.db.intents[i]);
      } else {
        IntentIdsGrow(s, l);
      }
    }
  }

  lemma IdsKept(s: State, l: Label)
    requires Inv(s) && Enabled(s, l)
    ensures IdsOk(Step(s, l).db)
  {
    GrowsStep(s, l);
    RowsAppended(s, l);
    IntentsHaveAlerts(s, l);
  }

  lemma UnbookedKept(s: State, l: Label)
    requires Unbooked(s) && Enabled(s, l)
    requires s.proc.Working? ==> s.proc.it.id < s.db.nextIntent
    ensures Unbooked(Step(s, l))
  {
    NextIntentGrows(s, l);
    forall i: nat | i >= Step(s, l).db.nextIntent
      ensures var h := Step(s, l).log;
        h.sends[i] == 0 && h.lost[i] == 0 && h.interrupted[i] == 0 && h.failures[i] == 0 && h.successes[i] == 0
    {
      BooksElsewhere(s, l, i);
    }
  }

  lemma DueMember(t: Tables, critical: bool, due: seq<DueIntent>, k: nat)
    requires IsDue(t, critical, due) && k < |due|
    ensures Current(t, due[k]) && Eligible(t, due[k].id)
    ensures var a := t.intents[due[k].id].alert; a in t.alerts && t.alerts[a].Critical() == critical
  {
    assert Ids(due)[k] in Ids(due);
    assert due[k].id in DueKeys(t, critical);
  }

  lemma DueDistinct(t: Tables, critical: bool, due: seq<DueIntent>, j: nat, k: nat)
    requires IsDue(t, critical, due) && j < k < |due|
    ensures due[j].id != due[k].id
  {
    assert Ids(due)[j] != Ids(due)[k];
  }

  lemma DueListOk(t: Tables, u: seq<DueIntent>, o: seq<DueIntent>)
    requires IsDue(t, true, u) && IsDue(t, false, o)
    ensures QueueOk(t, u + o)
  {
    var due := u + o;
    forall k | 0 <= k < |due| ensures Current(t, due[k]) {
      if k < |u| { DueMember(t, true, u, k); } else { DueMember(t, false, o, k - |u|); }
    }
    forall j, k | 0 <= j < k < |due| ensures due[j].id != due[k].id {
      if k < |u| {
        DueDistinct(t, true, u, j, k);
      } else if |u| <= j {
        DueDistinct(t, false, o, j - |u|, k - |u|);
      } else {
        DueMember(t, true, u, j);
        DueMember(t, false, o, k - |u|);
      }
    }
  }

  lemma BatchListOk(t: Tables, c: seq<nat>, n: seq<nat>)
    requires IsBatch(t, true, c) && IsBatch(t, false, n)
    ensures Distinct(c + n)
    ensures forall k | 0 <= k < |c + n| :: (c + n)[k] in t.alerts && !HasIntents(t, (c + n)[k])
  {
    forall k | 0 <= k < |c| ensures c[k] in UnmaterializedKeys(t, true) {
      assert c[k] in c;
    }
    forall k | 0 <= k < |n| ensures n[k] in UnmaterializedKeys(t, false) {
      assert n[k] in n;
    }
  }

  lemma QueueKept(s: State, l: Label, d: DueIntent)
    requires Inv(s) && Enabled(s, l) && Current(s.db, d) && Focus(s, l) != Some(d.id)
    ensures Current(Step(s, l).db, d)
  {
    OthersUntouched(s, l, d.id);
    assert AccountOf(Step(s, l), d.id).row == AccountOf(s, d.id).row;
  }

  lemma QueueShrinks(s: State, l: Label)
    requires Enabled(s, l) && !l.ReadDue?
    ensures var q, q' := Queue(s.proc), Queue(Step(s, l).proc);
      q' == q || q' == [] || (q != [] && q' == q[1..])
    ensures l.ClaimNext? ==> Queue(Step(s, l).proc) == Queue(s.proc)[1..]
  {
  }

  lemma WorkStarts(s: State, l: Label)
    requires Enabled(s, l) && Step(s, l).proc.Working?
    ensures var p, p' := s.proc, Step(s, l).proc;
      (l.ClaimNext? && p'.it == p.due[0] && p'.due == p.due[1..])
      || (!l.ClaimNext? && p.Working? && p'.it == p.it && p'.due == p.due)
  {
  }

  lemma QueueStaysOk(s: State, l: Label)
    requires Inv(s) && Enabled(s, l)
    ensures QueueOk(Step(s, l).db, Queue(Step(s, l).proc))
  {
    if l.ReadDue? {
      DueListOk(s.db, l.urgent, l.other);
    } else {
      FocusKnown(s, l);
      QueueShrinks(s, l);
      forall k | 0 <= k < |Queue(Step(s, l).proc)| ensures Current(Step(s, l).db, Queue(Step(s, l).proc)[k]) {
        var d := Queue(Step(s, l).proc)[k];
        assert Current(s.db, d);
        QueueKept(s, l, d);
      }
    }
  }

  lemma ProcKept(s: State, l: Label)
    requires Inv(s) && Enabled(s, l)
    ensures ProcOk(Step(s, l))
  {
    QueueStaysOk(s, l);
    if Step(s, l).proc.Working? {
      FocusKnown(s, l);
      WorkStarts(s, l);
      IdentitiesKept(s, l, Step(s, l).proc.it.id);
    }
  }

  lemma StillUnmaterialized(s: State, l: Label, a: nat)
    requires Inv(s) && Enabled(s, l) && !HasIntents(s.db, a)
    requires l.Materialize? ==> a != s.proc.batch[0]
    ensures !HasIntents(Step(s, l).db, a)
  {
    var s' := Step(s, l);
    GrowsStep(s, l);
    forall i | i in s'.db.intents ensures s'.db.intents[i].alert != a {
      if i in s.db.intents {
        assert SameIdentity(s.db.intents[i], s'.db.intents[i]);
      } else {
        IntentIdsGrow(s, l);
      }
    }
  }

  lemma BatchKept(s: State, l: Label)
    requires Inv(s) && Enabled(s, l)
    ensures BatchOk(Step(s, l))
  {
    var s' := Step(s, l);
    if l.ReadBatch? {
      BatchListOk(s.db, l.critical, l.normal);
    } else if s'.proc.Materializing? {
      GrowsStep(s, l);
      forall k | 0 <= k < |s'.proc.batch|
        ensures s'.proc.batch[k] in s'.db.alerts && !HasIntents(s'.db, s'.proc.batch[k])
      {
        StillUnmaterialized(s, l, s'.proc.batch[k]);
      }
    }
  }

  lemma StepKeeps(s: State, l: Label)
    requires Inv(s) && Enabled(s, l)
    ensures Inv(Step(s, l))
  {
    AccountsKept(s, l);
    IdsKept(s, l);
    UnbookedKept(s, l);
    ProcKept(s, l);
    BatchKept(s, l);
  }

  // ---- every run ----

  lemma GrowsTransitive(t: Tables, u: Tables, v: Tables)
    requires Grows(t, u) && Grows(u, v)
    ensures Grows(t, v)
  {
    forall i | i in t.intents ensures i in v.intents && SameIdentity(t.intents[i], v.intents[i]) {
      assert SameIdentity(t.intents[i], u.intents[i]);
      assert SameIdentity(u.intents[i], v.intents[i]);
    }
  }

  lemma {:induction false} RunKeeps(s: State, ls: seq<Label>)
    requires Inv(s) && Runs(s, ls)
    ensures Inv(After(s, ls)) && Grows(s.db, After(s, ls).db)
    decreases |ls|
  {
    if ls == [] {
    } else {
      StepKeeps(s, ls[0]);
      GrowsStep(s, ls[0]);
      RunKeeps(Step(s, ls[0]), ls[1..]);
      GrowsTransitive(s.db, Step(s, ls[0]).db, After(s, ls).db);
    }
  }

  /** The state after any run of a controller started on empty intent tables. */
  ghost predicate Reached(s0: State, ls: seq<Label>, s: State) {
    Initial(s0) && Runs(s0, ls) && s == After(s0, ls)
  }

  lemma ReachedInv(s0: State, ls: seq<Label>, s: State)
    requires Reached(s0, ls, s)
    ensures Inv(s)
  {
    InitialInv(s0);
    RunKeeps(s0, ls);
  }

  /** Settled is absorbing: no later label changes one field of a settled row. */
  lemma SettledForever(s0: State, ls: seq<Label>, s: State, more: seq<Label>, i: nat)
    requires Reached(s0, ls, s) && Runs(s, more)
    requires i in s.db.intents && s.db.intents[i].state.Settled?
    ensures i in After(s, more).db.intents && After(s, more).db.intents[i] == s.db.intents[i]
  {
    ReachedInv(s0, ls, s);
    RunKeeps(s, more);
    assert SameIdentity(s.db.intents[i], After(s, more).db.intents[i]);
  }

  /**
   At most one sent row; a settled intent says "sent" exactly when it has that row; and the messages
   that left exceed it only by those interrupted between the send and the insert of the row
   (plus the one for which that insert is the very next statement).
   */
  lemma MessagesAccounted(s0: State, ls: seq<Label>, s: State, i: nat)
    requires Reached(s0, ls, s) && i in s.db.intents
    ensures SentRows(s.db.deliveries, i) <= 1
    ensures s.db.intents[i].state.Settled? ==>
              (s.db.intents[i].outcome == Some(Outcome.Sent) <==> SentRows(s.db.deliveries, i) == 1)
    ensures s.log.sends[i] == SentRows(s.db.deliveries, i) + s.log.lost[i]
                              + (if At(s, i) && s.proc.stage.Delivered? then 1 else 0)
    ensures s.log.lost[i] <= s.log.interrupted[i]
  {
    ReachedInv(s0, ls, s);
    assert AccountOk(AccountOf(s, i), s.log.nextToken);
  }

  /** The retry budget: five attempts, plus one for each attempt that was cut short. */
  lemma AttemptsBounded(s0: State, ls: seq<Label>, s: State, i: nat)
    requires Reached(s0, ls, s) && i in s.db.intents
    ensures s.db.intents[i].attempts <= MAX_DELIVERY_ATTEMPTS + s.log.interrupted[i]
    ensures s.log.failures[i] <= MAX_DELIVERY_ATTEMPTS
    ensures s.db.intents[i].outcome == Some(PermanentFailure) ==> s.db.intents[i].attempts >= MAX_DELIVERY_ATTEMPTS
  {
    ReachedInv(s0, ls, s);
    assert AccountOk(AccountOf(s, i), s.log.nextToken);
  }

  /** With a single consumer the guards on claim_token never fail: no statement of a pass is lost. */
  lemma ClaimNeverLost(s0: State, ls: seq<Label>, s: State)
    requires Reached(s0, ls, s) && s.proc.Working?
    ensures HoldsOpen(s.db, s.proc.it.id, s.proc.token)
    ensures s.proc.stage.Ready? ==> Step(s, StartAttempt).proc.stage.Started?
  {
    ReachedInv(s0, ls, s);
    assert AccountOk(AccountOf(s, s.proc.it.id), s.log.nextToken);
  }
}
