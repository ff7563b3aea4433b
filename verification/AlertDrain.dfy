/**
 A finite set of alerts drains. Leaving aside interruptions, new alerts and the two retries that wait for
 the outside world (rate limit, missing mailer), every pass that finds anything to do uses up
 some of a finite amount of work: the alert raised for a delivery that was given up on never
 raises another one.
 */
module AlertDrain {
  import opened Options
  import opened Ranking
  import opened AlertTables
  import opened AlertProtocol
  import opened AlertSafety
  import opened AlertFairness

  // ---- sums ----

  function Total(w: seq<nat>): nat {
    if w == [] then 0 else Total(w[..|w| - 1]) + w[|w| - 1]
  }

  lemma {:induction false} TotalConcat(v: seq<nat>, w: seq<nat>)
    ensures Total(v + w) == Total(v) + Total(w)
  {
    if w == [] {
      assert v + w == v;
    } else {
      assert (v + w)[..|v + w| - 1] == v + w[..|w| - 1];
      TotalConcat(v, w[..|w| - 1]);
    }
  }

  lemma TotalUpdate(w: seq<nat>, k: nat, x: nat)
    requires k < |w|
    ensures Total(w[k := x]) + w[k] == Total(w) + x
  {
    assert w == w[..k] + [w[k]] + w[k + 1..];
    assert w[k := x] == w[..k] + [x] + w[k + 1..];
    TotalConcat(w[..k] + [w[k]], w[k + 1..]);
    TotalConcat(w[..k] + [x], w[k + 1..]);
    TotalConcat(w[..k], [w[k]]);
    TotalConcat(w[..k], [x]);
    assert Total([x]) == x && Total([w[k]]) == w[k];
  }

  lemma {:induction false} TotalConstant(n: nat, x: nat)
    ensures Total(seq(n, _ => x)) == n * x
  {
    if n != 0 {
      TotalConstant(n - 1, x);
      assert seq(n, _ => x)[..n - 1] == seq(n - 1, _ => x);
    }
  }

  // ---- the measure, for audiences of at most m targets ----

  predicate GaveUpType(t: Tables, a: nat) { a in t.alerts && t.alerts[a].eventType == GAVE_UP }

  /** The work a follow-up alert can cause: itself and five attempts for each of its targets. */
  function FollowUp(m: nat): nat { 1 + m * MAX_DELIVERY_ATTEMPTS }

  function Aftermath(t: Tables, a: nat, m: nat): nat { if GaveUpType(t, a) then 0 else FollowUp(m) }

  function AttemptsLeft(spent: nat): nat {
    if spent < MAX_DELIVERY_ATTEMPTS then MAX_DELIVERY_ATTEMPTS - spent else 1
  }

  function IntentWork(s: State, m: nat, i: nat): nat {
    if i in s.db.intents && s.db.intents[i].Open() then
      var r := s.db.intents[i];
      var spent := if At(s, i) && InAttempt(s.proc.stage) && r.attempts > 0 then r.attempts - 1 else r.attempts;
      AttemptsLeft(spent) + Aftermath(s.db, r.alert, m)
    else 0
  }

  function AlertWork(t: Tables, m: nat, a: nat): nat {
    if a in t.alerts && !HasIntents(t, a) then 1 + m * (MAX_DELIVERY_ATTEMPTS + Aftermath(t, a, m)) else 0
  }

  function IntentWorks(s: State, m: nat): seq<nat> { seq(s.db.nextIntent, (i: nat) => IntentWork(s, m, i)) }

  function AlertWorks(t: Tables, m: nat): seq<nat> { seq(t.nextAlert, (a: nat) => AlertWork(t, m, a)) }

  function Remaining(s: State, m: nat): nat { Total(IntentWorks(s, m)) + Total(AlertWorks(s.db, m)) }

  /** No interruption, no new alert, no retry that waits for the rate limit or for a mailer, audiences of at most m. */
  predicate Calm(s: State, l: Label, m: nat) {
    && !l.Produce? && !l.Fault? && !l.Crash?
    && (l.Materialize? ==> |l.targets| <= m)
    && (l.Close? && s.proc.Working? && s.proc.stage.Closing? ==>
          s.proc.stage.ending !in {RetryThrottled, RetryNoMailer, RetryInternal})
  }

  predicate Progresses(l: Label) { l.Materialize? || l.Close? }

  lemma IntentWorkElsewhere(s: State, l: Label, m: nat, i: nat)
    requires Inv(s) && Enabled(s, l) && i in s.db.intents && Focus(s, l) != Some(i)
    ensures IntentWork(Step(s, l), m, i) == IntentWork(s, m, i)
  {
    OthersUntouched(s, l, i);
    assert AccountOf(Step(s, l), i).row == AccountOf(s, i).row;
    assert AccountOf(Step(s, l), i).work == AccountOf(s, i).work;
    AlertsGrow(s, l);
  }

  lemma AlertWorkSame(s: State, l: Label, m: nat, a: nat)
    requires Inv(s) && Enabled(s, l) && a in s.db.alerts
    requires l.Materialize? ==> s.proc.batch[0] != a
    ensures AlertWork(Step(s, l).db, m, a) == AlertWork(s.db, m, a)
  {
    AlertsGrow(s, l);
    OneStepFrozen(s, l, a);
  }

  // ---- labels that do no work leave the measure alone ----

  lemma FocusWorkSame(s: State, l: Label, m: nat, i: nat)
    requires i in s.db.intents && AccountOk(AccountOf(s, i), s.log.nextToken)
    requires Enabled(s, l) && Calm(s, l, m) && Focus(s, l) == Some(i) && !l.Close?
    requires l.ClaimNext? ==> Current(s.db, s.proc.due[0])
    requires s.db.intents[i].alert in s.db.alerts
    ensures i in Step(s, l).db.intents && IntentWork(Step(s, l), m, i) == IntentWork(s, m, i)
  {
  }

  lemma IntentWorksSame(s: State, l: Label, m: nat)
    requires Inv(s) && Enabled(s, l) && Calm(s, l, m) && !Progresses(l)
    ensures IntentWorks(Step(s, l), m) == IntentWorks(s, m)
  {
    var s' := Step(s, l);
    FocusKnown(s, l);
    NextIntentSame(s, l);
    forall i | 0 <= i < s.db.nextIntent
      ensures IntentWork(s', m, i) == IntentWork(s, m, i)
    {
      if i !in s.db.intents {
        if i in s'.db.intents {
          OnlyMaterializeCreates(s, l, i);
        }
      } else if Focus(s, l) == Some(i) {
        FocusWorkSame(s, l, m, i);
      } else {
        IntentWorkElsewhere(s, l, m, i);
      }
    }
  }

  lemma NextIntentSame(s: State, l: Label)
    requires Enabled(s, l) && !l.Materialize?
    ensures Step(s, l).db.nextIntent == s.db.nextIntent
  {
  }

  lemma NextAlertSame(s: State, l: Label)
    requires Enabled(s, l) && !l.Produce? && !l.Close?
    ensures Step(s, l).db.nextAlert == s.db.nextAlert && Step(s, l).db.alerts == s.db.alerts
  {
  }

  lemma AlertWorksSame(s: State, l: Label, m: nat)
    requires Inv(s) && Enabled(s, l) && Calm(s, l, m) && !Progresses(l)
    ensures AlertWorks(Step(s, l).db, m) == AlertWorks(s.db, m)
  {
    NextAlertSame(s, l);
    forall a | 0 <= a < s.db.nextAlert && a in s.db.alerts
      ensures AlertWork(Step(s, l).db, m, a) == AlertWork(s.db, m, a)
    {
      AlertWorkSame(s, l, m, a);
    }
  }

  // ---- materializing an alert ----

  lemma MaterializedAlertWork(s: State, l: Label, m: nat, b: nat)
    requires Inv(s) && Enabled(s, l) && l.Materialize?
    ensures AlertWork(Step(s, l).db, m, b) == if b == s.proc.batch[0] then 0 else AlertWork(s.db, m, b)
  {
    NextAlertSame(s, l);
    if b == s.proc.batch[0] {
      FanoutIsWhole(s.db, b, l.targets);
    } else if b in s.db.alerts {
      AlertWorkSame(s, l, m, b);
    }
  }

  lemma MaterializedAlertWorks(s: State, l: Label, m: nat)
    requires Inv(s) && Enabled(s, l) && l.Materialize?
    ensures s.proc.batch[0] < s.db.nextAlert
    ensures AlertWorks(Step(s, l).db, m) == AlertWorks(s.db, m)[s.proc.batch[0] := 0]
  {
    NextAlertSame(s, l);
    forall b: nat | b < s.db.nextAlert
      ensures AlertWorks(Step(s, l).db, m)[b] == AlertWorks(s.db, m)[s.proc.batch[0] := 0][b]
    {
      MaterializedAlertWork(s, l, m, b);
    }
  }

  lemma MaterializedIntentWorks(s: State, l: Label, m: nat)
    requires Inv(s) && Enabled(s, l) && l.Materialize?
    ensures var n, x := |l.targets|, MAX_DELIVERY_ATTEMPTS + Aftermath(s.db, s.proc.batch[0], m);
            IntentWorks(Step(s, l), m) == IntentWorks(s, m) + (if n == 0 then [0] else seq(n, _ => x))
  {
    var s', n := Step(s, l), s.db.nextIntent;
    var added := if l.targets == [] then [0] else seq(|l.targets|, _ => MAX_DELIVERY_ATTEMPTS + Aftermath(s.db, s.proc.batch[0], m));
    forall i: nat | i < s'.db.nextIntent
      ensures IntentWork(s', m, i) == (IntentWorks(s, m) + added)[i]
    {
      if i in s.db.intents {
        IntentWorkElsewhere(s, l, m, i);
      } else if n <= i {
        FreshWork(s, l, m, i);
      } else if i in s'.db.intents {
        FocusKnown(s, l);
        OnlyMaterializeCreates(s, l, i);
      }
    }
  }

  lemma FreshRow(s: State, l: Label, i: nat)
    requires IdsOk(s.db) && Enabled(s, l) && l.Materialize? && s.db.nextIntent <= i < Step(s, l).db.nextIntent
    ensures i in Step(s, l).db.intents
    ensures Step(s, l).db.intents[i] ==
      if l.targets == [] then NoAudienceIntent(s.proc.batch[0], s.db.now)
      else NewIntent(s.proc.batch[0], l.targets[i - s.db.nextIntent], s.db.now)
  {
    assert i !in s.db.intents;
    if l.targets != [] {
      assert i in Span(s.db.nextIntent, |l.targets|);
    }
  }

  lemma FreshWork(s: State, l: Label, m: nat, i: nat)
    requires IdsOk(s.db) && Enabled(s, l) && l.Materialize? && s.db.nextIntent <= i < Step(s, l).db.nextIntent
    ensures IntentWork(Step(s, l), m, i)
         == if l.targets == [] then 0 else MAX_DELIVERY_ATTEMPTS + Aftermath(s.db, s.proc.batch[0], m)
  {
    FreshRow(s, l, i);
  }

  lemma Scale(n: nat, m: nat, x: nat)
    requires n <= m
    ensures n * x <= m * x
  {
  }

  lemma AlertSideFalls(s: State, l: Label, m: nat, x: nat)
    requires Inv(s) && Enabled(s, l) && l.Materialize?
    requires x == MAX_DELIVERY_ATTEMPTS + Aftermath(s.db, s.proc.batch[0], m)
    ensures Total(AlertWorks(Step(s, l).db, m)) + 1 + m * x == Total(AlertWorks(s.db, m))
  {
    var a := s.proc.batch[0];
    MaterializedAlertWorks(s, l, m);
    TotalUpdate(AlertWorks(s.db, m), a, 0);
    assert AlertWorks(s.db, m)[a] == 1 + m * x;
  }

  lemma IntentSideGrows(s: State, l: Label, m: nat, x: nat)
    requires Inv(s) && Enabled(s, l) && Calm(s, l, m) && l.Materialize?
    requires x == MAX_DELIVERY_ATTEMPTS + Aftermath(s.db, s.proc.batch[0], m)
    ensures Total(IntentWorks(Step(s, l), m)) <= Total(IntentWorks(s, m)) + m * x
  {
    MaterializedIntentWorks(s, l, m);
    var added := if |l.targets| == 0 then [0] else seq(|l.targets|, _ => x);
    TotalConcat(IntentWorks(s, m), added);
    if |l.targets| == 0 {
      assert Total([0]) == 0;
      Scale(0, m, x);
    } else {
      TotalConstant(|l.targets|, x);
      Scale(|l.targets|, m, x);
    }
  }

  lemma MaterializeWorks(s: State, l: Label, m: nat)
    requires Inv(s) && Enabled(s, l) && Calm(s, l, m) && l.Materialize?
    ensures Remaining(Step(s, l), m) < Remaining(s, m)
  {
    var x := MAX_DELIVERY_ATTEMPTS + Aftermath(s.db, s.proc.batch[0], m);
    AlertSideFalls(s, l, m, x);
    IntentSideGrows(s, l, m, x);
  }

  // ---- closing an intent ----

  lemma ClosedIntentWork(s: State, m: nat)
    requires Enabled(s, Close) && Calm(s, Close, m) && s.proc.it.id in s.db.intents
    requires AccountOk(AccountOf(s, s.proc.it.id), s.log.nextToken)
    requires s.db.intents[s.proc.it.id].alert in s.db.alerts
    ensures s.proc.it.id in Step(s, Close).db.intents
    ensures var i := s.proc.it.id;
      && IntentWork(Step(s, Close), m, i) < IntentWork(s, m, i)
      && (s.proc.stage.ending.GiveUp? ==>
            IntentWork(Step(s, Close), m, i) == 0 && IntentWork(s, m, i) >= 1 + Aftermath(s.db, s.proc.it.alert, m))
  {
  }

  lemma ClosedIntentWorks(s: State, m: nat)
    requires Inv(s) && Enabled(s, Close)
    ensures s.proc.it.id < s.db.nextIntent
    ensures IntentWorks(Step(s, Close), m)
         == IntentWorks(s, m)[s.proc.it.id := IntentWork(Step(s, Close), m, s.proc.it.id)]
  {
    var s' := Step(s, Close);
    FocusKnown(s, Close);
    NextIntentSame(s, Close);
    forall i | 0 <= i < s.db.nextIntent && i != s.proc.it.id
      ensures IntentWork(s', m, i) == IntentWork(s, m, i)
    {
      if i in s.db.intents {
        IntentWorkElsewhere(s, Close, m, i);
      } else if i in s'.db.intents {
        OnlyMaterializeCreates(s, Close, i);
      }
    }
  }

  /** Closing adds at most the follow-up alert, and none for an intent of a follow-up alert. */
  lemma ClosedAlertWorks(s: State, m: nat)
    requires Inv(s) && Enabled(s, Close)
    ensures var extra := if s.proc.stage.ending.GiveUp? && !GaveUpType(s.db, s.proc.it.alert) then [FollowUp(m)] else [];
            AlertWorks(Step(s, Close).db, m) == AlertWorks(s.db, m) + extra
  {
    var t, t', n := s.db, Step(s, Close).db, s.db.nextAlert;
    FocusKnown(s, Close);
    ClosedAlerts(s);
    forall a | 0 <= a < n ensures AlertWork(t', m, a) == AlertWork(t, m, a) {
      if a in t.alerts {
        AlertWorkSame(s, Close, m, a);
      }
    }
    if t'.nextAlert == n + 1 {
      assert !HasIntents(t, n);
      OneStepFrozen(s, Close, n);
      assert AlertWork(t', m, n) == FollowUp(m);
    }
  }

  lemma ClosedAlerts(s: State)
    requires Enabled(s, Close)
    ensures var t, t' := s.db, Step(s, Close).db;
      if s.proc.stage.ending.GiveUp? && !GaveUpType(t, s.proc.it.alert) then
        t'.nextAlert == t.nextAlert + 1 && t'.alerts == t.alerts[t.nextAlert := GaveUpAlert(s.proc.it.id)]
      else t'.nextAlert == t.nextAlert && t'.alerts == t.alerts
  {
  }

  lemma CloseWorks(s: State, m: nat)
    requires Inv(s) && Enabled(s, Close) && Calm(s, Close, m)
    ensures Remaining(Step(s, Close), m) < Remaining(s, m)
  {
    var i := s.proc.it.id;
    FocusKnown(s, Close);
    ClosedIntentWork(s, m);
    ClosedIntentWorks(s, m);
    ClosedAlertWorks(s, m);
    TotalUpdate(IntentWorks(s, m), i, IntentWork(Step(s, Close), m, i));
    if s.proc.stage.ending.GiveUp? && !GaveUpType(s.db, s.proc.it.alert) {
      TotalConcat(AlertWorks(s.db, m), [FollowUp(m)]);
      assert Total([FollowUp(m)]) == FollowUp(m);
    } else {
      assert AlertWorks(Step(s, Close).db, m) == AlertWorks(s.db, m);
    }
  }

  /** A calm label never adds work, and materializing or closing uses some up. */
  lemma CalmStep(s: State, l: Label, m: nat)
    requires Inv(s) && Enabled(s, l) && Calm(s, l, m)
    ensures Remaining(Step(s, l), m) + (if Progresses(l) then 1 else 0) <= Remaining(s, m)
  {
    if l.Materialize? {
      MaterializeWorks(s, l, m);
    } else if l.Close? {
      CloseWorks(s, m);
    } else {
      IntentWorksSame(s, l, m);
      AlertWorksSame(s, l, m);
    }
  }

  // ---- a pass with anything to do makes progress ----

  ghost predicate Drained(t: Tables) {
    && (forall a | a in t.alerts :: HasIntents(t, a))
    && (forall i | i in t.intents :: !t.intents[i].Open())
  }

  ghost predicate AllSettled(t: Tables) { forall i | i in t.intents :: !t.intents[i].Open() }

  /** Whatever is open is due and not under a lease. */
  ghost predicate AllDue(t: Tables) {
    forall i | i in t.intents && t.intents[i].Open() :: Eligible(t, i)
  }

  ghost predicate QueueEligible(s: State) {
    forall k | 0 <= k < |Queue(s.proc)| :: Queue(s.proc)[k].id in s.db.intents && Eligible(s.db, Queue(s.proc)[k].id)
  }

  lemma EmptyBatchMeansNone(t: Tables, c: seq<nat>, n: seq<nat>)
    requires IsBatch(t, true, c) && IsBatch(t, false, n) && c + n == []
    ensures forall a | a in t.alerts :: HasIntents(t, a)
  {
    forall a | a in t.alerts ensures HasIntents(t, a) {
      if !HasIntents(t, a) {
        assert a in UnmaterializedKeys(t, t.alerts[a].Critical());
        NonemptyServed(UnmaterializedKeys(t, t.alerts[a].Critical()), SlotsFor(t.alerts[a].Critical()),
                       if t.alerts[a].Critical() then c else n);
      }
    }
  }

  lemma OpenMeansDue(s: State, l: Label)
    requires Inv(s) && Enabled(s, l) && l.ReadDue? && AllDue(s.db) && !AllSettled(s.db)
    ensures l.urgent + l.other != []
  {
    var t := s.db;
    var i :| i in t.intents && t.intents[i].Open();
    var c := t.alerts[t.intents[i].alert].Critical();
    assert i in DueKeys(t, c);
    NonemptyServed(DueKeys(t, c), SlotsFor(c), Ids(if c then l.urgent else l.other));
  }

  lemma DueAreEligible(s: State, l: Label)
    requires Enabled(s, l) && l.ReadDue?
    ensures QueueEligible(Step(s, l))
  {
    var due := l.urgent + l.other;
    forall k | 0 <= k < |due| ensures due[k].id in s.db.intents && Eligible(s.db, due[k].id) {
      if k < |l.urgent| { DueMember(s.db, true, l.urgent, k); } else { DueMember(s.db, false, l.other, k - |l.urgent|); }
    }
  }

  lemma EligibleKept(s: State, l: Label)
    requires Inv(s) && QueueEligible(s) && Enabled(s, l)
    ensures QueueEligible(Step(s, l))
  {
    if l.ReadDue? {
      DueAreEligible(s, l);
    } else {
      var q, q' := Queue(s.proc), Queue(Step(s, l).proc);
      QueueShrinks(s, l);
      RowTimeGrows(s, l);
      FocusKnown(s, l);
      forall k | 0 <= k < |q'| ensures q'[k].id in Step(s, l).db.intents && Eligible(Step(s, l).db, q'[k].id) {
        var j := if q' == q then k else k + 1;
        assert q'[k] == q[j] && Current(s.db, q[j]);
        RowElsewhere(s, l, q[j].id);
      }
    }
  }

  lemma RowTimeGrows(s: State, l: Label)
    requires Enabled(s, l)
    ensures s.db.now <= Step(s, l).db.now
  {
  }

  /** With a single consumer the claim of a queried intent always succeeds. */
  lemma ClaimSucceeds(s: State)
    requires QueueEligible(s) && Enabled(s, ClaimNext)
    ensures Step(s, ClaimNext).proc.Working?
  {
    assert Queue(s.proc)[0] == s.proc.due[0];
  }

  lemma SettledStays(s: State, l: Label)
    requires Inv(s) && Enabled(s, l) && !l.Materialize? && AllSettled(s.db)
    ensures AllSettled(Step(s, l).db)
  {
    FocusKnown(s, l);
    forall i | i in Step(s, l).db.intents ensures !Step(s, l).db.intents[i].Open() {
      if i !in s.db.intents {
        OnlyMaterializeCreates(s, l, i);
      } else {
        IdentitiesKept(s, l, i);
      }
    }
  }

  lemma ClaimedIsOpen(s: State)
    requires Inv(s)
    ensures s.proc.Working? ==> s.proc.it.id in s.db.intents && s.db.intents[s.proc.it.id].Open()
  {
    if s.proc.Working? {
      assert AccountOk(AccountOf(s, s.proc.it.id), s.log.nextToken);
    }
  }

  lemma DrainedStays(s: State, l: Label, m: nat)
    requires Inv(s) && Enabled(s, l) && Calm(s, l, m) && Drained(s.db)
    ensures Drained(Step(s, l).db)
  {
    var t, t' := s.db, Step(s, l).db;
    ClaimedIsOpen(s);
    SettledStays(s, l);
    NextAlertSame(s, l);
    forall a | a in t'.alerts ensures HasIntents(t', a) {
      OneStepFrozen(s, l, a);
    }
  }

  function Ended(l: Label): nat { if l.EndPass? then 1 else 0 }

  // ---- whole runs ----

  ghost predicate CalmRun(s: State, ls: seq<Label>, m: nat)
    requires Runs(s, ls)
    decreases |ls|
  {
    ls == [] || (Calm(s, ls[0], m) && CalmRun(Step(s, ls[0]), ls[1..], m))
  }

  function PassesEnded(ls: seq<Label>): nat {
    if ls == [] then 0 else Ended(ls[0]) + PassesEnded(ls[1..])
  }

  lemma {:induction false} DrainedForGood(s: State, ls: seq<Label>, m: nat)
    requires Inv(s) && Runs(s, ls) && CalmRun(s, ls, m) && Drained(s.db)
    ensures Drained(After(s, ls).db)
    decreases |ls|
  {
    if ls == [] {
    } else {
      StepKeeps(s, ls[0]);
      DrainedStays(s, ls[0], m);
      DrainedForGood(Step(s, ls[0]), ls[1..], m);
    }
  }

  // ---- sleeping out the backoff makes everything due ----

  ghost predicate TimesOk(t: Tables) {
    forall i | i in t.intents && t.intents[i].Open() ::
      && t.intents[i].nextAttempt <= t.now + RETRY_BACKOFF_SECS
      && (t.intents[i].claimedAt.Some? ==> t.intents[i].claimedAt.value <= t.now)
  }

  lemma TimesKept(s: State, l: Label)
    requires Inv(s) && TimesOk(s.db) && Enabled(s, l)
    ensures TimesOk(Step(s, l).db)
  {
    var t, t' := s.db, Step(s, l).db;
    FocusKnown(s, l);
    RowTimeGrows(s, l);
    forall i | i in t'.intents && t'.intents[i].Open()
      ensures t'.intents[i].nextAttempt <= t'.now + RETRY_BACKOFF_SECS
      ensures t'.intents[i].claimedAt.Some? ==> t'.intents[i].claimedAt.value <= t'.now
    {
      if i !in t.intents {
        OnlyMaterializeCreates(s, l, i);
      } else if Focus(s, l) != Some(i) {
        RowElsewhere(s, l, i);
      } else {
        ClaimedIsOpen(s);
        TimesKeptFocus(s, l, i);
      }
    }
  }

  lemma TimesKeptFocus(s: State, l: Label, i: nat)
    requires i in s.db.intents && Enabled(s, l) && Focus(s, l) == Some(i) && i in Step(s, l).db.intents
    requires s.db.intents[i].Open() ==>
      && s.db.intents[i].nextAttempt <= s.db.now + RETRY_BACKOFF_SECS
      && (s.db.intents[i].claimedAt.Some? ==> s.db.intents[i].claimedAt.value <= s.db.now)
    requires s.proc.Working? ==> s.db.intents[i].Open()
    requires l.ClaimNext? ==> s.db.intents[i].Open()
    ensures Step(s, l).db.intents[i].Open() ==>
      && Step(s, l).db.intents[i].nextAttempt <= Step(s, l).db.now + RETRY_BACKOFF_SECS
      && (Step(s, l).db.intents[i].claimedAt.Some? ==> Step(s, l).db.intents[i].claimedAt.value <= Step(s, l).db.now)
  {
  }

  lemma {:induction false} RunTimes(s: State, ls: seq<Label>)
    requires Inv(s) && TimesOk(s.db) && Runs(s, ls)
    ensures TimesOk(After(s, ls).db)
    decreases |ls|
  {
    if ls == [] {
    } else {
      StepKeeps(s, ls[0]);
      TimesKept(s, ls[0]);
      RunTimes(Step(s, ls[0]), ls[1..]);
    }
  }

  /**
   From any reachable state, five minutes of sleep make every open intent due: none is postponed
   further, and no claim left by a crash is still leased.
   */
  lemma SleepMakesDue(s0: State, ls: seq<Label>, s: State, seconds: nat, i: nat)
    requires Reached(s0, ls, s) && seconds >= RETRY_BACKOFF_SECS
    requires i in s.db.intents && s.db.intents[i].Open()
    ensures i in Step(s, Wait(seconds)).db.intents && Eligible(Step(s, Wait(seconds)).db, i)
  {
    InitialInv(s0);
    RunTimes(s0, ls);
    assert Step(s, Wait(seconds)).db.intents == s.db.intents;
  }

  /** The counter of completed passes counts them. */
  lemma {:induction false} PassesCounted(s: State, ls: seq<Label>)
    requires Runs(s, ls)
    ensures After(s, ls).log.passes == s.log.passes + PassesEnded(ls)
    decreases |ls|
  {
    if ls == [] {
    } else {
      PassesCounted(Step(s, ls[0]), ls[1..]);
    }
  }

  // ---- passes that find something to do ----

  /** Between queries: the pass has something in hand that it must close or materialize before it can end. */
  predicate Stuck(p: Proc) {
    p.Working? || (p.Materializing? && p.batch != []) || (p.Draining? && p.due != [])
  }

  /** Completed passes whose batch or due list was not empty; `found` says so of the current pass so far. */
  function BusyPasses(ls: seq<Label>, found: bool): nat {
    if ls == [] then 0
    else
      match ls[0]
      case ReadBatch(c, n) => BusyPasses(ls[1..], c + n != [])
      case ReadDue(u, o) => BusyPasses(ls[1..], found || u + o != [])
      case EndPass => (if found then 1 else 0) + BusyPasses(ls[1..], false)
      case _ => BusyPasses(ls[1..], found)
  }

  function Found(l: Label, found: bool): bool {
    match l
    case ReadBatch(c, n) => c + n != []
    case ReadDue(u, o) => found || u + o != []
    case EndPass => false
    case _ => found
  }

  /** A pass that found something has already used up work, or is bound to. */
  function Credit(p: Proc, found: bool): nat { if found && !Stuck(p) then 1 else 0 }

  lemma BusyStep(s: State, l: Label, m: nat, found: bool)
    requires Inv(s) && QueueEligible(s) && Enabled(s, l) && Calm(s, l, m)
    ensures (if l.EndPass? && found then 1 else 0) + Remaining(Step(s, l), m) + Credit(Step(s, l).proc, Found(l, found))
         <= Remaining(s, m) + Credit(s.proc, found)
  {
    CalmStep(s, l, m);
    if l.ClaimNext? {
      ClaimSucceeds(s);
    } else if !Progresses(l) {
      HandsKept(s, l);
    }
  }

  lemma HandsKept(s: State, l: Label)
    requires Enabled(s, l) && !Progresses(l) && !l.ClaimNext? && !l.Fault? && !l.Crash?
    ensures Stuck(Step(s, l).proc) ==
      if l.ReadBatch? then l.critical + l.normal != []
      else if l.ReadDue? then l.urgent + l.other != []
      else Stuck(s.proc)
    ensures l.ReadBatch? || l.ReadDue? || l.EndPass? ==> !Stuck(s.proc)
  {
  }

  lemma {:induction false} BusyOverRun(s: State, ls: seq<Label>, m: nat, found: bool)
    requires Inv(s) && QueueEligible(s) && Runs(s, ls) && CalmRun(s, ls, m)
    ensures BusyPasses(ls, found) + Remaining(After(s, ls), m) <= Remaining(s, m) + Credit(s.proc, found)
    decreases |ls|
  {
    if ls == [] {
    } else {
      StepKeeps(s, ls[0]);
      EligibleKept(s, ls[0]);
      BusyStep(s, ls[0], m, found);
      BusyOverRun(Step(s, ls[0]), ls[1..], m, Found(ls[0], found));
    }
  }

  /** However long a calm run is, at most as many of its passes find something to do as there was work at its start. */
  lemma BusyPassesBounded(s: State, ls: seq<Label>, m: nat)
    requires Inv(s) && s.proc.Resting? && Runs(s, ls) && CalmRun(s, ls, m)
    ensures BusyPasses(ls, false) <= Remaining(s, m)
  {
    BusyOverRun(s, ls, m, false);
  }

  // ---- a pass after the backoff makes progress ----

  /** Nothing is materialized or closed. */
  predicate Quiet(ls: seq<Label>) { forall k | 0 <= k < |ls| :: !Progresses(ls[k]) }

  lemma {:induction false} ProgressUsesWork(s: State, ls: seq<Label>, m: nat)
    requires Inv(s) && Runs(s, ls) && CalmRun(s, ls, m)
    ensures Remaining(After(s, ls), m) + (if Quiet(ls) then 0 else 1) <= Remaining(s, m)
    decreases |ls|
  {
    if ls == [] {
    } else {
      StepKeeps(s, ls[0]);
      CalmStep(s, ls[0], m);
      ProgressUsesWork(Step(s, ls[0]), ls[1..], m);
      assert Quiet(ls[1..]) && !Progresses(ls[0]) ==> Quiet(ls);
    }
  }

  /** With something in hand and nothing closed, no pass ends. */
  lemma {:induction false} StuckStays(s: State, ls: seq<Label>, m: nat)
    requires Inv(s) && QueueEligible(s) && Stuck(s.proc) && Runs(s, ls) && CalmRun(s, ls, m) && Quiet(ls)
    ensures Stuck(After(s, ls).proc) && PassesEnded(ls) == 0
    decreases |ls|
  {
    if ls == [] {
    } else {
      StepKeeps(s, ls[0]);
      EligibleKept(s, ls[0]);
      assert !Progresses(ls[0]);
      if ls[0].ClaimNext? { ClaimSucceeds(s); } else { HandsKept(s, ls[0]); }
      assert Quiet(ls[1..]);
      StuckStays(Step(s, ls[0]), ls[1..], m);
    }
  }

  lemma IdleStep(s: State, l: Label, m: nat)
    requires Enabled(s, l) && Calm(s, l, m) && !Progresses(l) && !Stuck(s.proc)
    ensures Step(s, l).db.intents == s.db.intents && Step(s, l).db.alerts == s.db.alerts && s.db.now <= Step(s, l).db.now
  {
  }

  lemma {:induction false} IdleRun(s: State, ls: seq<Label>, m: nat)
    requires Inv(s) && QueueEligible(s) && !Stuck(s.proc) && Runs(s, ls) && CalmRun(s, ls, m) && Quiet(ls)
    requires !Stuck(After(s, ls).proc)
    ensures After(s, ls).db.intents == s.db.intents && After(s, ls).db.alerts == s.db.alerts
    decreases |ls|
  {
    if ls == [] {
    } else {
      assert !Progresses(ls[0]) && Quiet(ls[1..]);
      StepKeeps(s, ls[0]);
      EligibleKept(s, ls[0]);
      IdleStep(s, ls[0], m);
      if Stuck(Step(s, ls[0]).proc) {
        StuckStays(Step(s, ls[0]), ls[1..], m);
      } else {
        IdleRun(Step(s, ls[0]), ls[1..], m);
      }
    }
  }

  /** What an idle pass has shown by each of its phases, when everything open is due. */
  ghost predicate Shown(s: State) {
    && AllDue(s.db) && !Stuck(s.proc)
    && (s.proc.Materializing? ==> forall a | a in s.db.alerts :: HasIntents(s.db, a))
    && (s.proc.Draining? ==> Drained(s.db))
  }

  lemma ShownStep(s: State, l: Label, m: nat)
    requires Inv(s) && Shown(s) && Enabled(s, l) && Calm(s, l, m) && !Progresses(l) && !Stuck(Step(s, l).proc)
    ensures Shown(Step(s, l))
  {
    var s' := Step(s, l);
    IdleStep(s, l, m);
    forall a ensures HasIntents(s'.db, a) == HasIntents(s.db, a) {
    }
    if l.ReadBatch? {
      EmptyBatchMeansNone(s.db, l.critical, l.normal);
    } else if l.ReadDue? && !AllSettled(s.db) {
      OpenMeansDue(s, l);
    }
  }

  /** A pass that completes without progress while everything open is due proves that nothing is left. */
  lemma {:induction false} IdlePassMeansDrained(s: State, ls: seq<Label>, m: nat)
    requires Inv(s) && QueueEligible(s) && Shown(s) && Runs(s, ls) && CalmRun(s, ls, m) && Quiet(ls)
    requires PassesEnded(ls) > 0
    ensures Drained(After(s, ls).db)
    decreases |ls|
  {
    var s' := Step(s, ls[0]);
    assert !Progresses(ls[0]) && Quiet(ls[1..]);
    if ls[0].EndPass? {
      DrainedForGood(s, ls, m);
    } else {
      StepKeeps(s, ls[0]);
      EligibleKept(s, ls[0]);
      if Stuck(s'.proc) {
        StuckStays(s', ls[1..], m);
      } else {
        ShownStep(s, ls[0], m);
        IdlePassMeansDrained(s', ls[1..], m);
      }
    }
  }

  // ---- the drain ----

  /** Five minutes or more, with any number of passes in them, and then a run of passes at least one of which completes. */
  datatype Stretch = Stretch(wait: seq<Label>, pass: seq<Label>)

  ghost predicate IsStretch(s: State, stretch: Stretch, m: nat) {
    && Runs(s, stretch.wait) && CalmRun(s, stretch.wait, m)
    && var t := After(s, stretch.wait);
       && t.proc.Resting? && t.db.now >= s.db.now + RETRY_BACKOFF_SECS
       && Runs(t, stretch.pass) && CalmRun(t, stretch.pass, m)
       && PassesEnded(stretch.pass) > 0 && After(t, stretch.pass).proc.Resting?
  }

  lemma BackoffMakesDue(s: State, t: State)
    requires TimesOk(s.db) && t.db.intents == s.db.intents && t.db.now >= s.db.now + RETRY_BACKOFF_SECS
    ensures AllDue(t.db)
  {
  }

  /** A calm stretch that outlasts the backoff and ends with a completed pass uses up work, or everything is drained. */
  lemma StretchProgress(s: State, stretch: Stretch, m: nat)
    requires Inv(s) && TimesOk(s.db) && s.proc.Resting? && IsStretch(s, stretch, m)
    ensures
      var t := After(After(s, stretch.wait), stretch.pass);
      Remaining(t, m) < Remaining(s, m) || (Drained(t.db) && Remaining(t, m) <= Remaining(s, m))
  {
    var t := After(s, stretch.wait);
    RunKeeps(s, stretch.wait);
    ProgressUsesWork(s, stretch.wait, m);
    ProgressUsesWork(t, stretch.pass, m);
    if Quiet(stretch.wait) && Quiet(stretch.pass) {
      IdleRun(s, stretch.wait, m);
      BackoffMakesDue(s, t);
      IdlePassMeansDrained(t, stretch.pass, m);
    }
  }

  function Labels(stretches: seq<Stretch>): seq<Label> {
    if stretches == [] then [] else stretches[0].wait + stretches[0].pass + Labels(stretches[1..])
  }

  ghost predicate AreStretches(s: State, stretches: seq<Stretch>, m: nat)
    decreases |stretches|
  {
    stretches == []
    || (IsStretch(s, stretches[0], m)
        && AreStretches(After(After(s, stretches[0].wait), stretches[0].pass), stretches[1..], m))
  }

  lemma {:induction false} CalmConcat(s: State, a: seq<Label>, b: seq<Label>, m: nat)
    requires Runs(s, a) && CalmRun(s, a, m) && Runs(After(s, a), b) && CalmRun(After(s, a), b, m)
    ensures Runs(s, a + b) && CalmRun(s, a + b, m) && After(s, a + b) == After(After(s, a), b)
    decreases |a|
  {
    if a == [] {
      assert a + b == b;
    } else {
      CalmConcat(Step(s, a[0]), a[1..], b, m);
      assert (a + b)[1..] == a[1..] + b;
    }
  }

  lemma {:induction false} StretchesAreARun(s: State, stretches: seq<Stretch>, m: nat)
    requires Inv(s) && TimesOk(s.db) && s.proc.Resting? && AreStretches(s, stretches, m)
    ensures Runs(s, Labels(stretches)) && CalmRun(s, Labels(stretches), m)
    ensures Drained(After(s, Labels(stretches)).db) || |stretches| + Remaining(After(s, Labels(stretches)), m) <= Remaining(s, m)
    decreases |stretches|
  {
    if stretches == [] {
    } else {
      var t := After(s, stretches[0].wait);
      var u := After(t, stretches[0].pass);
      StretchProgress(s, stretches[0], m);
      RunKeeps(s, stretches[0].wait);
      RunTimes(s, stretches[0].wait);
      RunKeeps(t, stretches[0].pass);
      RunTimes(t, stretches[0].pass);
      StretchesAreARun(u, stretches[1..], m);
      CalmConcat(s, stretches[0].wait, stretches[0].pass, m);
      CalmConcat(s, stretches[0].wait + stretches[0].pass, Labels(stretches[1..]), m);
      if Drained(u.db) {
        DrainedForGood(u, Labels(stretches[1..]), m);
      }
    }
  }

  /**
   From any reachable state at rest: once more stretches of at least the retry backoff have gone by, each ended by a
   completed pass, than there was work to do, every alert has its intents and every intent is settled. Sends may fail
   and be retried meanwhile, and any number of passes may find nothing due.
   */
  lemma Drains(s0: State, before: seq<Label>, s: State, stretches: seq<Stretch>, m: nat)
    requires Reached(s0, before, s) && s.proc.Resting? && AreStretches(s, stretches, m)
    requires |stretches| > Remaining(s, m)
    ensures Runs(s, Labels(stretches)) && Drained(After(s, Labels(stretches)).db)
  {
    ReachedInv(s0, before, s);
    InitialInv(s0);
    RunTimes(s0, before);
    StretchesAreARun(s, stretches, m);
  }
}
