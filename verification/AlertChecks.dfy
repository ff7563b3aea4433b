/**
 What one delivery decides and leaves behind, said of the rows themselves: when an earlier message, an equal message or
 the hourly limit stops it, who is told of an alert, how long a retry waits, and what a final failure reports.
 */
module AlertChecks {
  import opened Options
  import opened Ranking
  import opened AlertTables
  import opened AlertProtocol
  import opened AlertSafety

  // ---- counts of rows ----

  /** The positions of the sent rows of an intent. */
  function SentOf(ds: seq<Delivery>, i: nat): set<int> {
    set q | 0 <= q < |ds| && ds[q].status == SentRow && ds[q].intent == i
  }

  /** The positions of the rows sent to a target at or after `since`. */
  function SentLately(ds: seq<Delivery>, target: Target, since: Time): set<int> {
    set q | 0 <= q < |ds| && ds[q].status == SentRow && ds[q].target == Some(target) && ds[q].at >= since
  }

  lemma {:induction false} SentRowsIs(ds: seq<Delivery>, i: nat)
    ensures SentRows(ds, i) == |SentOf(ds, i)|
  {
    if ds != [] {
      var n := |ds| - 1;
      SentRowsIs(ds[..n], i);
      assert SentOf(ds, i) == SentOf(ds[..n], i) + if ds[n].status.SentRow? && ds[n].intent == i then {n} else {};
    }
  }

  lemma {:induction false} SentSinceIs(ds: seq<Delivery>, target: Target, since: Time)
    ensures SentSince(ds, target, since) == |SentLately(ds, target, since)|
  {
    if ds != [] {
      var n := |ds| - 1;
      SentSinceIs(ds[..n], target, since);
      assert SentLately(ds, target, since)
          == SentLately(ds[..n], target, since)
             + if ds[n].status.SentRow? && ds[n].target == Some(target) && ds[n].at >= since then {n} else {};
    }
  }

  // ---- the checks ----

  /** The claimed intent's alert is one of those that are always sent at once. */
  predicate AlwaysNow(t: Tables, it: DueIntent) {
    it.alert in t.alerts && t.alerts[it.alert].eventType in ALWAYS_IMMEDIATE
  }

  /** Some message with the alert's key was sent to the target in the last ten minutes. */
  ghost predicate EqualLately(t: Tables, alert: nat, target: Target) {
    exists q | 0 <= q < |t.deliveries| ::
      && t.deliveries[q].status == SentRow && t.deliveries[q].target == Some(target) && t.deliveries[q].at >= t.now - 600
      && t.deliveries[q].alert in t.alerts && alert in t.alerts
      && t.alerts[t.deliveries[q].alert].dedup == t.alerts[alert].dedup
  }

  /** Only the stage of the claimed intent moves, and perhaps the books. */
  predicate OnlyStage(s: State, s': State) {
    s.proc.Working? && s'.db == s.db && s'.proc == s.proc.(stage := if s'.proc.Working? then s'.proc.stage else s.proc.stage)
  }

  /** An attempt is only made when no earlier one got its message out and recorded it. */
  lemma SentCheckIs(s: State)
    requires Enabled(s, CheckSent)
    ensures OnlyStage(s, Step(s, CheckSent)) && Step(s, CheckSent).proc.stage in {Closing(SettleRecovered), Unsent}
    ensures Step(s, CheckSent).proc.stage == Closing(SettleRecovered) <==>
              exists q | 0 <= q < |s.db.deliveries| ::
                s.db.deliveries[q].status == SentRow && s.db.deliveries[q].intent == s.proc.it.id
  {
    SentRowsIs(s.db.deliveries, s.proc.it.id);
    var sent := SentOf(s.db.deliveries, s.proc.it.id);
    if q :| 0 <= q < |s.db.deliveries| && s.db.deliveries[q].status == SentRow && s.db.deliveries[q].intent == s.proc.it.id {
      assert q in sent;
    }
    if sent != {} {
      var q :| q in sent;
      assert s.db.deliveries[q].status == SentRow;
    }
  }

  /** A message is held back as a repetition exactly when its alert is not always immediate and an equal one went out lately. */
  lemma DedupCheckIs(s: State)
    requires Enabled(s, CheckDedup)
    ensures OnlyStage(s, Step(s, CheckDedup)) && Step(s, CheckDedup).proc.stage in {Suppressing, Fresh}
    ensures Step(s, CheckDedup).proc.stage.Suppressing? <==>
              !AlwaysNow(s.db, s.proc.it) && s.proc.it.target.Some? && EqualLately(s.db, s.proc.it.alert, s.proc.it.target.value)
  {
    var t, it := s.db, s.proc.it;
    if it.target.Some? {
      if RecentlyDelivered(t, it.alert, it.target.value) {
        var q :| 0 <= q < |t.deliveries| && SentTo(t.deliveries[q], it.target.value)
          && SameKey(t.alerts, t.deliveries[q].alert, it.alert) && t.deliveries[q].at >= t.now - DEDUP_WINDOW_SECS;
        assert t.deliveries[q].status == SentRow;
      }
      if q :| 0 <= q < |t.deliveries| && t.deliveries[q].status == SentRow && t.deliveries[q].target == Some(it.target.value)
              && t.deliveries[q].at >= t.now - 600 && t.deliveries[q].alert in t.alerts && it.alert in t.alerts
              && t.alerts[t.deliveries[q].alert].dedup == t.alerts[it.alert].dedup
      {
        assert SentTo(t.deliveries[q], it.target.value) && SameKey(t.alerts, t.deliveries[q].alert, it.alert);
      }
    }
  }

  /** And put off exactly when its alert is not always immediate and twenty messages went to the target in the last hour. */
  lemma RateCheckIs(s: State)
    requires Enabled(s, CheckRate)
    ensures OnlyStage(s, Step(s, CheckRate)) && Step(s, CheckRate).proc.stage in {Throttled, Admitted}
    ensures Step(s, CheckRate).proc.stage.Throttled? <==>
              && !AlwaysNow(s.db, s.proc.it) && s.proc.it.target.Some?
              && |SentLately(s.db.deliveries, s.proc.it.target.value, s.db.now - 3600)| >= 20
  {
    if s.proc.it.target.Some? {
      SentSinceIs(s.db.deliveries, s.proc.it.target.value, s.db.now - HOUR_SECS);
    }
  }

  /** Mail waits for a mailer; nothing else does. */
  lemma MailerCheckIs(s: State, available: bool)
    requires Enabled(s, CheckMailer(available))
    ensures OnlyStage(s, Step(s, CheckMailer(available)))
    ensures Step(s, CheckMailer(available)).proc.stage in {Closing(RetryNoMailer), Ready}
    ensures Step(s, CheckMailer(available)).proc.stage.Closing? <==>
              !available && exists r :: s.proc.it.target == Some(Recipient(r))
  {
    if s.proc.it.target.Some? && s.proc.it.target.value.Recipient? {
      assert s.proc.it.target == Some(Recipient(s.proc.it.target.value.recipient));
    }
  }

  // ---- always immediate alerts are never held back ----

  /** Stages of a message that is held back as a repetition or put off by the limit. */
  predicate HeldBack(st: Stage) {
    st == Suppressing || st == Throttled || st == Closing(SettleSuppressed) || st == Closing(RetryThrottled)
  }

  /** Intent i belongs to an alert that is always sent at once. */
  predicate MustGoNow(t: Tables, i: nat) {
    i in t.intents && t.intents[i].alert in t.alerts && t.alerts[t.intents[i].alert].eventType in ALWAYS_IMMEDIATE
  }

  ghost predicate NotHeld(s: State, i: nat)
    requires i in s.db.intents
  {
    s.db.intents[i].outcome != Some(Suppressed) && (At(s, i) ==> !HeldBack(s.proc.stage))
  }

  lemma HeldHow(s: State, l: Label)
    requires Enabled(s, l) && Step(s, l).proc.Working? && HeldBack(Step(s, l).proc.stage)
    ensures s.proc.Working? && Step(s, l).proc.it == s.proc.it
    ensures HeldBack(s.proc.stage) || ((l.CheckDedup? || l.CheckRate?) && !ImmediateIt(s.db, s.proc.it))
  {
  }

  lemma SuppressedHow(s: State, l: Label, i: nat)
    requires Enabled(s, l) && i in s.db.intents && i in Step(s, l).db.intents && i < s.db.nextIntent
    requires Step(s, l).db.intents[i].outcome == Some(Suppressed)
    ensures s.db.intents[i].outcome == Some(Suppressed) || (At(s, i) && HeldBack(s.proc.stage))
  {
  }

  lemma NotHeldKept(s: State, l: Label, i: nat)
    requires Inv(s) && Enabled(s, l) && i in s.db.intents && MustGoNow(s.db, i) && NotHeld(s, i)
    ensures i in Step(s, l).db.intents && MustGoNow(Step(s, l).db, i) && NotHeld(Step(s, l), i)
  {
    GrowsStep(s, l);
    var s' := Step(s, l);
    assert SameIdentity(s.db.intents[i], s'.db.intents[i]);
    if s'.db.intents[i].outcome == Some(Suppressed) { SuppressedHow(s, l, i); }
    assert AccountOk(AccountOf(s, i), s.log.nextToken);
    if At(s', i) && HeldBack(s'.proc.stage) { HeldHow(s, l); }
  }

  lemma NewNotHeld(s: State, l: Label, i: nat)
    requires Inv(s) && Enabled(s, l) && i !in s.db.intents && i in Step(s, l).db.intents
    ensures NotHeld(Step(s, l), i)
  {
    FocusKnown(s, l);
    OnlyMaterializeCreates(s, l, i);
  }

  ghost predicate NoneHeld(s: State) {
    forall i | i in s.db.intents && MustGoNow(s.db, i) :: NotHeld(s, i)
  }

  lemma NoneHeldKept(s: State, l: Label)
    requires Inv(s) && Enabled(s, l) && NoneHeld(s)
    ensures NoneHeld(Step(s, l))
  {
    GrowsStep(s, l);
    var s' := Step(s, l);
    forall i | i in s'.db.intents && MustGoNow(s'.db, i) ensures NotHeld(s', i) {
      if i in s.db.intents {
        assert SameIdentity(s.db.intents[i], s'.db.intents[i]);
        NotHeldKept(s, l, i);
      } else {
        NewNotHeld(s, l, i);
      }
    }
  }

  lemma {:induction false} NoneHeldOverRun(s: State, ls: seq<Label>)
    requires Inv(s) && NoneHeld(s) && Runs(s, ls)
    ensures NoneHeld(After(s, ls))
    decreases |ls|
  {
    if ls != [] {
      StepKeeps(s, ls[0]);
      NoneHeldKept(s, ls[0]);
      NoneHeldOverRun(Step(s, ls[0]), ls[1..]);
    }
  }

  /** In no reachable state is an intent of an always immediate alert suppressed or on its way to be held back. */
  lemma ImmediateNeverHeld(s0: State, ls: seq<Label>, s: State, i: nat)
    requires Reached(s0, ls, s) && i in s.db.intents
    requires s.db.intents[i].alert in s.db.alerts && s.db.alerts[s.db.intents[i].alert].eventType in ALWAYS_IMMEDIATE
    ensures s.db.intents[i].outcome != Some(Suppressed)
    ensures s.proc.Working? && s.proc.it.id == i ==>
              s.proc.stage !in {Suppressing, Throttled, Closing(SettleSuppressed), Closing(RetryThrottled)}
  {
    InitialInv(s0);
    NoneHeldOverRun(s0, ls);
    assert MustGoNow(s.db, i);
  }

  // ---- what a pass takes on ----

  /** The intent may be claimed: open, due, and not claimed in the last two minutes. */
  predicate Free(t: Tables, i: nat) {
    && i in t.intents && (t.intents[i].state == Pending || t.intents[i].state == Retry) && t.intents[i].nextAttempt <= t.now
    && (t.intents[i].claimedAt == None || t.intents[i].claimedAt.value < t.now - 120)
  }

  /** Of the severity class: critical alerts are one class and all others the second. */
  predicate OfClass(t: Tables, alert: nat, critical: bool) {
    alert in t.alerts && ((t.alerts[alert].severity == "critical") == critical)
  }

  predicate FreeOf(t: Tables, i: nat, critical: bool) { Free(t, i) && OfClass(t, t.intents[i].alert, critical) }

  /** Longest due first; then the older alert, then the older intent. */
  predicate Sooner(t: Tables, x: nat, y: nat)
    requires x in t.intents && y in t.intents
  {
    var a, b := t.intents[x], t.intents[y];
    || a.nextAttempt < b.nextAttempt
    || (a.nextAttempt == b.nextAttempt && (a.alert < b.alert || (a.alert == b.alert && x < y)))
  }

  function SoonerThan(t: Tables, i: nat, critical: bool): set<nat>
    requires i in t.intents
  {
    set x | x in t.intents && FreeOf(t, x, critical) && Sooner(t, x, i)
  }

  lemma DueKeysAre(t: Tables, critical: bool)
    ensures forall i :: i in DueKeys(t, critical) <==> FreeOf(t, i, critical)
    ensures forall i, j | i in DueKeys(t, critical) && j in DueKeys(t, critical) ::
      Less(DueKeys(t, critical)[i], DueKeys(t, critical)[j]) <==> Sooner(t, i, j)
  {
  }

  /** A pass takes free intents of the class as their rows stand, the soonest first. */
  lemma DueListOrder(t: Tables, critical: bool, due: seq<DueIntent>)
    requires IsDue(t, critical, due)
    ensures forall k | 0 <= k < |due| ::
      && FreeOf(t, due[k].id, critical)
      && due[k] == DueIntent(due[k].id, t.intents[due[k].id].alert, t.intents[due[k].id].target, t.intents[due[k].id].attempts)
    ensures forall j, k | 0 <= j < k < |due| :: Sooner(t, due[j].id, due[k].id)
  {
    var keys, ids := DueKeys(t, critical), Ids(due);
    DueKeysAre(t, critical);
    forall k | 0 <= k < |due| ensures FreeOf(t, due[k].id, critical) {
      assert ids[k] in ids && due[k].id == ids[k];
    }
    forall j, k | 0 <= j < k < |due| ensures Sooner(t, due[j].id, due[k].id) {
      assert Less(keys[ids[j]], keys[ids[k]]);
    }
  }

  lemma BelowIsSooner(t: Tables, critical: bool, i: nat)
    requires FreeOf(t, i, critical)
    ensures i in DueKeys(t, critical) && Below(DueKeys(t, critical), i) == SoonerThan(t, i, critical)
  {
    DueKeysAre(t, critical);
  }

  /** And it takes one exactly when fewer than forty, or ten, free ones of its class come sooner. */
  lemma DueListIs(t: Tables, critical: bool, due: seq<DueIntent>, i: nat)
    requires IsDue(t, critical, due) && FreeOf(t, i, critical)
    ensures (exists k | 0 <= k < |due| :: due[k].id == i) <==> |SoonerThan(t, i, critical)| < if critical then 40 else 10
  {
    var ids := Ids(due);
    BelowIsSooner(t, critical, i);
    assert forall k | 0 <= k < |due| :: ids[k] == due[k].id && ids[k] in ids;
    if i in ids {
      var k :| 0 <= k < |ids| && ids[k] == i;
      assert due[k].id == i;
    }
  }

  /** No intent of the alert exists. */
  predicate Unheard(t: Tables, a: nat, critical: bool) {
    OfClass(t, a, critical) && forall i | i in t.intents :: t.intents[i].alert != a
  }

  /** A batch takes an alert without intents exactly when fewer than forty, or ten, such alerts of its class are older. */
  lemma BatchIs(t: Tables, critical: bool, batch: seq<nat>)
    requires IsBatch(t, critical, batch)
    ensures forall j, k | 0 <= j < k < |batch| :: batch[j] < batch[k]
    ensures forall a :: a in batch <==>
      Unheard(t, a, critical) && |set b | b in t.alerts && Unheard(t, b, critical) && b < a| < if critical then 40 else 10
  {
    var keys := UnmaterializedKeys(t, critical);
    forall a ensures a in keys <==> Unheard(t, a, critical) {
      assert a in keys <==> OfClass(t, a, critical) && !HasIntents(t, a);
    }
    forall a | a in keys ensures Below(keys, a) == set b | b in t.alerts && Unheard(t, b, critical) && b < a {
    }
  }

  /** The claim goes through exactly when the row is still free, under a token never used before. */
  lemma ClaimIs(s: State)
    requires Enabled(s, ClaimNext)
    ensures
      var i, s', n := s.proc.due[0].id, Step(s, ClaimNext), s.log.nextToken;
      if Free(s.db, i) then
        && s'.proc == Working(s.proc.due[1..], s.proc.due[0], n, Claimed) && s'.log.nextToken == n + 1
        && s'.db.intents == s.db.intents[i := s.db.intents[i].(token := Some(n), claimedAt := Some(s.db.now))]
      else s'.proc == Draining(s.proc.due[1..]) && s'.db == s.db
  {
  }

  // ---- who is told ----

  /** A recipient is told who is verified and subscribed, to everything or to this event, or a critical alert's administrator. */
  predicate Told(d: Directory, a: Alert, target: Target) {
    match target
    case Recipient(r) =>
      && r in d.recipients && d.recipients[r].verified
      && ((r, None) in d.subscriptions || (r, Some(a.eventType)) in d.subscriptions
          || (a.severity == "critical" && d.recipients[r].admin))
    case Endpoint(e) => e in d.endpoints && ((e, None) in d.hooks || (e, Some(a.eventType)) in d.hooks)
  }

  /** The first row of an intent: never tried, due at once. */
  predicate Untried(row: Intent, alert: nat, target: Target, now: Time) {
    row == Intent(alert, Some(target), Pending, None, 0, now, None, None)
  }

  lemma MaterializedTellsAll(s: State, targets: seq<Target>, target: Target) returns (i: nat)
    requires Enabled(s, Materialize(targets)) && Told(s.db.directory, s.db.alerts[s.proc.batch[0]], target)
    ensures i in Step(s, Materialize(targets)).db.intents
    ensures s.db.nextIntent <= i < Step(s, Materialize(targets)).db.nextIntent
    ensures Untried(Step(s, Materialize(targets)).db.intents[i], s.proc.batch[0], target, s.db.now)
  {
    assert target in Audience(s.db.directory, s.db.alerts[s.proc.batch[0]]);
    var k :| 0 <= k < |targets| && targets[k] == target;
    i := s.db.nextIntent + k;
  }

  lemma MaterializedTellsOnly(s: State, targets: seq<Target>, i: nat)
    requires Enabled(s, Materialize(targets)) && i in Step(s, Materialize(targets)).db.intents && i !in s.db.intents
    ensures
      var t, row := s.db, Step(s, Materialize(targets)).db.intents[i];
      if row.target.None? then
        && row == Intent(s.proc.batch[0], None, Settled, Some(NoAudience), 0, t.now, None, None)
        && forall target :: !Told(t.directory, t.alerts[s.proc.batch[0]], target)
      else
        && Told(t.directory, t.alerts[s.proc.batch[0]], row.target.value)
        && Untried(row, s.proc.batch[0], row.target.value, t.now)
  {
    var t, row, a := s.db, Step(s, Materialize(targets)).db.intents[i], s.db.alerts[s.proc.batch[0]];
    if targets == [] {
      assert Audience(t.directory, a) == {};
      forall target ensures !Told(t.directory, a, target) {
        assert target !in Audience(t.directory, a);
      }
    } else {
      var target := targets[i - t.nextIntent];
      assert target in Members(targets);
      assert target in Audience(t.directory, a);
    }
  }

  // ---- how long an intent waits between claims ----

  /** The label claims intent i. */
  ghost predicate Claims(s: State, l: Label, i: nat)
    requires Enabled(s, l)
  {
    l.ClaimNext? && At(Step(s, l), i)
  }

  /** Since time c the row has not been free for another claim. */
  predicate ClaimedSince(row: Intent, c: Time) {
    row.state.Settled? || (row.claimedAt.Some? && row.claimedAt.value >= c) || row.nextAttempt >= c + 300
  }

  predicate WaitsSince(row: Intent, c: Time) {
    row.state.Settled? || row.nextAttempt >= c + 300
  }

  lemma WaitKept(s: State, l: Label, i: nat, c: Time)
    requires Enabled(s, l) && i in s.db.intents && i < s.db.nextIntent && c <= s.db.now
    ensures i in Step(s, l).db.intents && c <= Step(s, l).db.now
    ensures ClaimedSince(s.db.intents[i], c) ==> ClaimedSince(Step(s, l).db.intents[i], c)
    ensures WaitsSince(s.db.intents[i], c) ==> WaitsSince(Step(s, l).db.intents[i], c)
  {
  }

  lemma {:induction false} WaitKeptOverRun(s: State, ls: seq<Label>, i: nat, c: Time)
    requires Inv(s) && Runs(s, ls) && i in s.db.intents && c <= s.db.now
    ensures i in After(s, ls).db.intents && c <= After(s, ls).db.now
    ensures ClaimedSince(s.db.intents[i], c) ==> ClaimedSince(After(s, ls).db.intents[i], c)
    ensures WaitsSince(s.db.intents[i], c) ==> WaitsSince(After(s, ls).db.intents[i], c)
    decreases |ls|
  {
    if ls != [] {
      StepKeeps(s, ls[0]);
      WaitKept(s, ls[0], i, c);
      WaitKeptOverRun(Step(s, ls[0]), ls[1..], i, c);
    }
  }

  /** Two claims of one intent are more than two minutes apart, whatever was interrupted between them. */
  lemma ClaimsApart(s: State, l: Label, more: seq<Label>, again: Label, i: nat)
    requires Inv(s) && Enabled(s, l) && Claims(s, l, i)
    requires Runs(Step(s, l), more) && Enabled(After(Step(s, l), more), again) && Claims(After(Step(s, l), more), again, i)
    ensures After(Step(s, l), more).db.now > s.db.now + 120
  {
    StepKeeps(s, l);
    var first := Step(s, l);
    assert AccountOk(AccountOf(first, i), first.log.nextToken);
    WaitKeptOverRun(first, more, i, s.db.now);
  }

  /** After an attempt closed for a retry, for whatever reason, the intent is left alone for five minutes. */
  lemma RetryWaits(s: State, more: seq<Label>, again: Label, i: nat)
    requires Inv(s) && At(s, i) && s.proc.stage.Closing?
    requires s.proc.stage.ending in {RetryFailed, RetryThrottled, RetryNoMailer, RetryInternal}
    requires Runs(Step(s, Close), more)
    requires Enabled(After(Step(s, Close), more), again) && Claims(After(Step(s, Close), more), again, i)
    ensures After(Step(s, Close), more).db.now >= s.db.now + 300
  {
    StepKeeps(s, Close);
    RetryLeaves(s, i);
    WaitOver(Step(s, Close), more, again, i, s.db.now);
  }

  lemma WaitOver(s: State, more: seq<Label>, again: Label, i: nat, c: Time)
    requires Inv(s) && i in s.db.intents && c <= s.db.now && WaitsSince(s.db.intents[i], c)
    requires Runs(s, more) && Enabled(After(s, more), again) && Claims(After(s, more), again, i)
    ensures After(s, more).db.now >= c + 300
  {
    WaitKeptOverRun(s, more, i, c);
    ClaimedWasFree(After(s, more), again, i);
  }

  lemma ClaimedWasFree(s: State, l: Label, i: nat)
    requires Enabled(s, l) && Claims(s, l, i)
    ensures i in s.db.intents && Eligible(s.db, i)
  {
  }

  lemma RetryLeaves(s: State, i: nat)
    requires Inv(s) && At(s, i) && s.proc.stage.Closing?
    requires s.proc.stage.ending in {RetryFailed, RetryThrottled, RetryNoMailer, RetryInternal}
    ensures i in Step(s, Close).db.intents && WaitsSince(Step(s, Close).db.intents[i], s.db.now)
    ensures Step(s, Close).db.now == s.db.now
  {
    assert AccountOk(AccountOf(s, i), s.log.nextToken);
  }

  // ---- how an attempt is closed ----

  /** What the closing statement makes of the row; everything else about the row stays. */
  function ClosedAs(row: Intent, e: Ending, now: Time): Intent {
    var free := row.(token := None, claimedAt := None);
    match e
    case SettleSent => free.(state := Settled, outcome := Some(Outcome.Sent))
    case SettleRecovered => free.(state := Settled, outcome := Some(Outcome.Sent))
    case SettleSuppressed => free.(state := Settled, outcome := Some(Suppressed))
    case GiveUp => free.(state := Settled, outcome := Some(PermanentFailure))
    case _ => free.(state := Retry, nextAttempt := now + 300)
  }

  /** In every reachable state the closing statement finds its row, and touches no other. */
  lemma CloseIs(s: State, i: nat)
    requires Inv(s) && At(s, i) && s.proc.stage.Closing?
    ensures i in s.db.intents
    ensures Step(s, Close).db.intents == s.db.intents[i := ClosedAs(s.db.intents[i], s.proc.stage.ending, s.db.now)]
    ensures Step(s, Close).db.deliveries == s.db.deliveries && Step(s, Close).proc == Draining(s.proc.due)
  {
    assert AccountOk(AccountOf(s, i), s.log.nextToken);
    RowClosed(s.db, s.proc.it, s.proc.token, s.proc.stage.ending);
  }

  lemma RowClosed(t: Tables, it: DueIntent, token: nat, e: Ending)
    requires HoldsOpen(t, it.id, token)
    ensures ClosedRow(t, it, token, e).intents == t.intents[it.id := ClosedAs(t.intents[it.id], e, t.now)]
    ensures ClosedRow(t, it, token, e).deliveries == t.deliveries
  {
  }

  /** A final failure raises one critical alert that is always sent at once and names the intent, unless it was one itself. */
  lemma FollowUpIs(s: State, i: nat)
    requires Inv(s) && At(s, i) && s.proc.stage == Closing(GiveUp)
    ensures
      var t, t' := s.db, Step(s, Close).db;
      && t.intents[i].alert in t.alerts
      && if t.alerts[t.intents[i].alert].eventType == "alert_delivery_permanently_failed" then t'.alerts == t.alerts
         else
           && t.nextAlert !in t.alerts && t'.alerts.Keys == t.alerts.Keys + {t.nextAlert}
           && (forall a | a in t.alerts :: t'.alerts[a] == t.alerts[a])
           && t'.alerts[t.nextAlert].eventType == "alert_delivery_permanently_failed"
           && t'.alerts[t.nextAlert].eventType in ALWAYS_IMMEDIATE
           && t'.alerts[t.nextAlert].severity == "critical" && t'.alerts[t.nextAlert].dedup == GaveUpOn(i)
  {
    assert AccountOk(AccountOf(s, i), s.log.nextToken);
  }

  /** A refused attempt is the last one exactly when it was at least the fifth counted. */
  lemma LastAttemptIs(s: State, i: nat)
    requires Inv(s) && At(s, i) && s.proc.stage.Refused?
    ensures Step(s, Record).proc.stage == Closing(if s.db.intents[i].attempts >= 5 then GiveUp else RetryFailed)
    ensures Step(s, Record).db.deliveries
         == s.db.deliveries + [Delivery(i, s.db.intents[i].alert, s.db.intents[i].target, FailedRow, s.db.now)]
  {
    assert AccountOk(AccountOf(s, i), s.log.nextToken);
  }
}
