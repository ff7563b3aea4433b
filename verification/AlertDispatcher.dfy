/**
 The dispatcher as the source writes it: a pass over the tables, statement by statement, in place.
 Every method keeps the trace of machine labels its statements amount to, so each call is a run of
 AlertProtocol and every theorem about runs is a theorem about these methods.
 The outside world (clock, producers, subscription edits, failing statements, a stopped process,
 the mailer and the senders' answers) is a list of decisions, one consumed per statement.
 */
module AlertDispatcher {
  import opened Options
  import opened Ranking
  import opened AlertTables
  import opened AlertProtocol
  import opened AlertSafety
  import opened AlertFairness

  datatype Trouble = Fine | Error | Halt

  datatype Weather = Weather(
    elapsed: nat,
    produced: seq<Alert>,
    directory: Option<Directory>,
    trouble: Trouble,
    answer: bool
  )

  /** How a call ended: normally, with an error for the caller to handle, or with the process gone. */
  datatype Ended = Done | Failed | Halted

  /** The k-th label leads from the k-th state to the next one. */
  ghost predicate Link(history: seq<State>, trace: seq<Label>, k: nat)
    requires |history| == |trace| + 1 && k < |trace|
  {
    Enabled(history[k], trace[k]) && history[k + 1] == Step(history[k], trace[k])
  }

  ghost predicate Chain(history: seq<State>, trace: seq<Label>) {
    |history| == |trace| + 1 && forall k | 0 <= k < |trace| :: Link(history, trace, k)
  }

  lemma ChainGrows(history: seq<State>, trace: seq<Label>, l: Label)
    requires Chain(history, trace) && Enabled(history[|trace|], l)
    ensures Chain(history + [Step(history[|trace|], l)], trace + [l])
  {
    var history', trace' := history + [Step(history[|trace|], l)], trace + [l];
    forall k | 0 <= k < |trace'| ensures Link(history', trace', k) {
      if k < |trace| {
        assert Link(history, trace, k);
      }
    }
  }

  lemma {:induction false} ChainRuns(history: seq<State>, trace: seq<Label>)
    requires Chain(history, trace)
    ensures Runs(history[0], trace) && After(history[0], trace) == history[|trace|]
  {
    if trace != [] {
      assert Link(history, trace, 0);
      forall k | 0 <= k < |trace[1..]| ensures Link(history[1..], trace[1..], k) {
        assert Link(history, trace, k + 1);
      }
      ChainRuns(history[1..], trace[1..]);
    }
  }

  /** The unique key (alert, channel, target) is taken. */
  predicate KeyTaken(rows: map<nat, Intent>, a: nat, target: Target) {
    exists i | i in rows :: rows[i].alert == a && rows[i].target == Some(target)
  }

  lemma NotYetInserted(t: Tables, a: nat, targets: seq<Target>, k: nat)
    requires !HasIntents(t, a) && AllDifferent(targets) && k < |targets|
    ensures !KeyTaken(t.intents + FreshRows(t, a, targets[..k]), a, targets[k])
  {
    var fresh' := FreshRows(t, a, targets[..k]);
    forall i | i in t.intents + fresh' && (t.intents + fresh')[i].alert == a
      ensures (t.intents + fresh')[i].target != Some(targets[k])
    {
      if i in fresh' {
        assert targets[..k][i - t.nextIntent] != targets[k];
      }
    }
  }

  lemma OneMoreRow(t: Tables, a: nat, targets: seq<Target>, k: nat)
    requires k < |targets|
    ensures FreshRows(t, a, targets[..k + 1])
         == FreshRows(t, a, targets[..k])[t.nextIntent + k := NewIntent(a, targets[k], t.now)]
  {
  }

  /** The rows of the first k targets are in, on top of what was there. */
  predicate InsertedSoFar(t: Tables, a: nat, targets: seq<Target>, k: nat, rows: map<nat, Intent>, next: nat)
    requires k <= |targets|
  {
    rows == t.intents + FreshRows(t, a, targets[..k]) && next == t.nextIntent + k
  }

  lemma InsertedNone(t: Tables, a: nat, targets: seq<Target>)
    ensures InsertedSoFar(t, a, targets, 0, t.intents, t.nextIntent)
  {
    assert FreshRows(t, a, targets[..0]) == map[];
  }

  lemma InsertedOneMore(t: Tables, a: nat, targets: seq<Target>, k: nat, rows: map<nat, Intent>, next: nat)
    requires !HasIntents(t, a) && AllDifferent(targets) && k < |targets| && InsertedSoFar(t, a, targets, k, rows, next)
    ensures !KeyTaken(rows, a, targets[k])
    ensures InsertedSoFar(t, a, targets, k + 1, rows[next := NewIntent(a, targets[k], t.now)], next + 1)
  {
    NotYetInserted(t, a, targets, k);
    OneMoreRow(t, a, targets, k);
  }

  lemma InsertedAll(t: Tables, a: nat, targets: seq<Target>, rows: map<nat, Intent>, next: nat)
    requires InsertedSoFar(t, a, targets, |targets|, rows, next)
    ensures Fanout(t, a, targets) ==
      if targets == [] then t.(intents := rows[next := NoAudienceIntent(a, t.now)], nextIntent := next + 1)
      else t.(intents := rows, nextIntent := next)
  {
    assert targets[..|targets|] == targets;
    if targets == [] {
      assert FreshRows(t, a, targets) == map[];
      assert t.intents + map[] == t.intents;
    }
  }

  class Dispatcher {
    var now: Time
    var alerts: map<nat, Alert>
    var intents: map<nat, Intent>
    var deliveries: seq<Delivery>
    var nextAlert: nat
    var nextIntent: nat
    var directory: Directory
    var nextToken: nat
    const weather: seq<Weather>
    var cursor: nat

    ghost const origin: State
    ghost var history: seq<State>
    ghost var trace: seq<Label>
    ghost var proc: Proc
    ghost var log: History

    function Db(): Tables
      reads this
    {
      Tables(now, alerts, intents, deliveries, nextAlert, nextIntent, directory)
    }

    ghost function Abs(): State
      reads this
    {
      State(Db(), proc, log)
    }

    /** The object is where the run of its trace has led. */
    ghost predicate Valid()
      reads this
    {
      && Initial(origin)
      && Chain(history, trace) && history[0] == origin && history[|trace|] == Abs()
      && nextToken == log.nextToken
    }

    constructor (clock: Time, directory: Directory, alerts: map<nat, Alert>, nextAlert: nat, weather: seq<Weather>)
      requires forall a | a in alerts :: a < nextAlert
      ensures Valid() && proc.Resting? && trace == []
      ensures Db() == Tables(clock, alerts, map[], [], nextAlert, 0, directory) && this.weather == weather && cursor == 0
    {
      now, this.directory, this.alerts, this.nextAlert, this.weather := clock, directory, alerts, nextAlert, weather;
      intents, deliveries, nextIntent, nextToken, cursor := map[], [], 0, 0, 0;
      origin := State(Tables(clock, alerts, map[], [], nextAlert, 0, directory), Resting,
                      History(multiset{}, multiset{}, multiset{}, multiset{}, multiset{}, map[], 0, 0, 0, 0));
      trace, proc := [], Resting;
      log := History(multiset{}, multiset{}, multiset{}, multiset{}, multiset{}, map[], 0, 0, 0, 0);
      history := [State(Tables(clock, alerts, map[], [], nextAlert, 0, directory), Resting,
                        History(multiset{}, multiset{}, multiset{}, multiset{}, multiset{}, map[], 0, 0, 0, 0))];
    }

    /** Whatever happened since then is one more piece of the same run. */
    twostate predicate Continues()
      reads this
    {
      old(history) <= history
    }

    /** Books the statement just executed from `before` as the label l. */
    ghost method Take(before: State, l: Label)
      requires Initial(origin) && Chain(history, trace) && history[0] == origin && history[|trace|] == before
      requires Enabled(before, l) && Step(before, l).db == Db()
      requires nextToken == Step(before, l).log.nextToken
      modifies `history, `trace, `proc, `log
      ensures Valid() && Abs() == Step(before, l) && Continues()
    {
      ChainGrows(history, trace, l);
      history := history + [Step(before, l)];
      trace, proc, log := trace + [l], Step(before, l).proc, Step(before, l).log;
    }

    /** Every state of a valid object is reached by the machine. */
    lemma Reachable()
      requires Valid()
      ensures Reached(origin, trace, Abs()) && Inv(Abs())
    {
      ChainRuns(history, trace);
      ReachedInv(origin, trace, Abs());
    }

    /** A method that keeps Valid() and Continues() has executed a run of the machine from where it was called. */
    twostate lemma RunSince() returns (ls: seq<Label>)
      requires old(Valid()) && Valid() && Continues()
      ensures Runs(old(Abs()), ls) && After(old(Abs()), ls) == Abs()
    {
      var n := |old(history)| - 1;
      ls := trace[n..];
      forall k | 0 <= k < |ls| ensures Link(history[n..], ls, k) {
        assert Link(history, trace, n + k);
      }
      ChainRuns(history[n..], ls);
    }

    // ---- the environment between two statements ----

    method Elapse(seconds: nat)
      requires Valid()
      modifies `now, `history, `trace, `proc, `log
      ensures Valid() && Abs() == Step(old(Abs()), Wait(seconds)) && Continues()
    {
      ghost var before := Abs();
      now := now + seconds;
      Take(before, Wait(seconds));
    }

    method Insert(a: Alert)
      requires Valid()
      modifies `alerts, `nextAlert, `history, `trace, `proc, `log
      ensures Valid() && Abs() == Step(old(Abs()), Produce(a)) && Continues()
    {
      ghost var before := Abs();
      alerts, nextAlert := alerts[nextAlert := a], nextAlert + 1;
      Take(before, Produce(a));
    }

    method Edit(d: Directory)
      requires Valid()
      modifies `directory, `history, `trace, `proc, `log
      ensures Valid() && Abs() == Step(old(Abs()), EditDirectory(d)) && Continues()
    {
      ghost var before := Abs();
      directory := d;
      Take(before, EditDirectory(d));
    }

    /** Only the environment moved: the dispatcher, its books and its rows are as they were. */
    twostate predicate OnlyEnvironment()
      reads this
    {
      proc == old(proc) && log == old(log) && intents == old(intents) && deliveries == old(deliveries) && Continues()
    }

    method InsertAll(produced: seq<Alert>)
      requires Valid()
      modifies `alerts, `nextAlert, `history, `trace, `proc, `log
      ensures Valid() && OnlyEnvironment()
    {
      for k := 0 to |produced|
        invariant Valid() && OnlyEnvironment()
      {
        Insert(produced[k]);
      }
    }

    /** One decision of the outside world: what happened since the last statement and how this one goes. */
    method NextStatement() returns (trouble: Trouble, answer: bool)
      requires Valid()
      modifies `now, `alerts, `nextAlert, `directory, `cursor, `history, `trace, `proc, `log
      ensures Valid() && OnlyEnvironment()
      ensures if old(cursor) < |weather|
              then cursor == old(cursor) + 1 && trouble == weather[old(cursor)].trouble && answer == weather[old(cursor)].answer
              else cursor == old(cursor) && trouble == Fine && answer
    {
      trouble, answer := Fine, true;
      if cursor < |weather| {
        var w := weather[cursor];
        cursor := cursor + 1;
        trouble, answer := w.trouble, w.answer;
        Elapse(w.elapsed);
        InsertAll(w.produced);
        if w.directory.Some? {
          Edit(w.directory.value);
        }
      }
    }

    /** The last decision consumed was a failing statement or a stopped process. */
    twostate predicate Stopped()
      reads this
    {
      old(cursor) < cursor <= |weather| && weather[cursor - 1].trouble != Fine
    }

    /** Neither the end of a pass nor a crash since then. */
    twostate predicate Underway()
      reads this
    {
      log.passes == old(log.passes) && log.crashes == old(log.crashes) && old(cursor) <= cursor && Continues()
    }

    /** Not even a failed statement since then. */
    twostate predicate Uninterrupted()
      reads this
    {
      Underway() && log.faults == old(log.faults)
    }

    /** Awaits the next statement; a stopped process ends the pass here. */
    method Await() returns (end: Ended, answer: bool)
      requires Valid()
      modifies this
      ensures Valid() && old(cursor) <= cursor && (end != Done ==> Stopped())
      ensures end == Halted ==> proc.Resting? && log.sends == old(log.sends) && log.passes == old(log.passes) && Continues()
      ensures end != Halted ==> OnlyEnvironment()
      ensures end == Done && old(cursor) < |weather| ==> answer == weather[old(cursor)].answer
    {
      var trouble;
      trouble, answer := NextStatement();
      if trouble == Halt {
        Take(Abs(), Crash);
        return Halted, answer;
      }
      end := if trouble == Error then Failed else Done;
    }

    // ---- the statements of process_intent ----

    method IntentAlreadySent(i: nat) returns (sent: bool)
      ensures sent == (SentRows(deliveries, i) > 0)
    {
      var count := 0;
      for q := 0 to |deliveries|
        invariant count == SentRows(deliveries[..q], i)
      {
        assert deliveries[..q + 1][..q] == deliveries[..q];
        if deliveries[q].status.SentRow? && deliveries[q].intent == i {
          count := count + 1;
        }
      }
      assert deliveries[..|deliveries|] == deliveries;
      sent := count > 0;
    }

    method SentCount(target: Target, since: Time) returns (count: nat)
      ensures count == SentSince(deliveries, target, since)
    {
      count := 0;
      for q := 0 to |deliveries|
        invariant count == SentSince(deliveries[..q], target, since)
      {
        assert deliveries[..q + 1][..q] == deliveries[..q];
        if SentTo(deliveries[q], target) && deliveries[q].at >= since {
          count := count + 1;
        }
      }
      assert deliveries[..|deliveries|] == deliveries;
    }

    method RecentlyDeliveredNow(it: DueIntent) returns (found: bool)
      ensures found == Recently(Db(), it)
    {
      found := false;
      if it.target.Some? {
        for q := 0 to |deliveries|
          invariant found <==> exists p | 0 <= p < q :: (
            SentTo(deliveries[p], it.target.value)
            && SameKey(alerts, deliveries[p].alert, it.alert) && deliveries[p].at >= now - DEDUP_WINDOW_SECS)
        {
          if SentTo(deliveries[q], it.target.value) && SameKey(alerts, deliveries[q].alert, it.alert)
             && deliveries[q].at >= now - DEDUP_WINDOW_SECS {
            found := true;
          }
        }
      }
    }

    method OverRateLimitNow(it: DueIntent) returns (over: bool)
      ensures over == OverLimit(Db(), it)
    {
      over := false;
      if it.target.Some? {
        var count := SentCount(it.target.value, now - HOUR_SECS);
        over := count >= RATE_LIMIT_PER_HOUR;
      }
    }

    method RecordAttempt(it: DueIntent, status: DeliveryStatus)
      modifies `deliveries
      ensures Db() == RecordRow(old(Db()), it, status)
    {
      deliveries := deliveries + [Delivery(it.id, it.alert, it.target, status, now)];
    }

    method CountAttemptNow(i: nat, claim: nat) returns (updated: bool)
      modifies `intents
      ensures Db() == CountAttempt(old(Db()), i, claim) && updated == HoldsOpen(old(Db()), i, claim)
    {
      updated := i in intents && intents[i].token == Some(claim) && intents[i].Open();
      if updated {
        intents := intents[i := intents[i].(attempts := intents[i].attempts + 1)];
      }
    }

    method RetryIntent(i: nat, claim: nat)
      modifies `intents
      ensures Db() == RetryRow(old(Db()), i, claim)
    {
      if i in intents && intents[i].token == Some(claim) {
        intents := intents[i := intents[i].(
          state := Retry, nextAttempt := now + RETRY_BACKOFF_SECS, token := None, claimedAt := None)];
      }
    }

    method SettleIntent(i: nat, claim: nat, outcome: Outcome)
      modifies `intents
      ensures Db() == SettleRow(old(Db()), i, claim, outcome)
    {
      if i in intents && intents[i].token == Some(claim) {
        intents := intents[i := intents[i].(state := Settled, outcome := Some(outcome), token := None, claimedAt := None)];
      }
    }

    method SettlePermanentFailure(i: nat, claim: nat, alert: nat)
      modifies `intents, `alerts, `nextAlert
      ensures Db() == GiveUpRow(old(Db()), i, claim, alert)
    {
      SettleIntent(i, claim, PermanentFailure);
      if alert in alerts && alerts[alert].eventType == GAVE_UP {
        return;
      }
      alerts, nextAlert := alerts[nextAlert := GaveUpAlert(i)], nextAlert + 1;
    }

    // ---- process_intent ----

    /** The dispatcher works on this intent under this claim, at this stage. */
    ghost predicate On(due: seq<DueIntent>, it: DueIntent, claim: nat, stage: Stage)
      reads this
    {
      Valid() && proc == Working(due, it, claim, stage)
    }

    /** Where a call on a claimed intent may leave the dispatcher. */
    twostate predicate Left(end: Ended, due: seq<DueIntent>, it: DueIntent, claim: nat)
      reads this
    {
      && Valid()
      && old(cursor) <= cursor && log.passes == old(log.passes) && Continues()
      && (end != Done ==> Stopped())
      && (end == Done ==> proc == Draining(due) && Uninterrupted())
      && (end == Failed ==> proc.Working? && proc == Working(due, it, claim, proc.stage)
                            && proc.stage != Closing(RetryInternal) && Uninterrupted())
      && (end == Halted ==> proc.Resting?)
    }

    method ApplyEnding(it: DueIntent, claim: nat, ending: Ending)
      modifies `intents, `alerts, `nextAlert
      ensures Db() == ClosedRow(old(Db()), it, claim, ending)
    {
      match ending {
        case SettleSent => SettleIntent(it.id, claim, Outcome.Sent);
        case SettleRecovered => SettleIntent(it.id, claim, Outcome.Sent);
        case SettleSuppressed => SettleIntent(it.id, claim, Suppressed);
        case GiveUp => SettlePermanentFailure(it.id, claim, it.alert);
        case _ => RetryIntent(it.id, claim);
      }
    }

    // ---- the label each statement of process_intent amounts to ----

    ghost method TookCheck(due: seq<DueIntent>, it: DueIntent, claim: nat, stage: Stage, l: Label)
      requires On(due, it, claim, stage)
      requires (stage.Claimed? && l.CheckSent?) || (stage.Unsent? && l.CheckDedup?)
            || (stage.Fresh? && l.CheckRate?) || (stage.Admitted? && l.CheckMailer?)
      modifies `history, `trace, `proc, `log
      ensures On(due, it, claim, Checked(Db(), it, stage, l.CheckMailer? ==> l.available)) && Uninterrupted()
    {
      Take(Abs(), l);
    }

    ghost method TookSend(due: seq<DueIntent>, it: DueIntent, claim: nat, ok: bool)
      requires On(due, it, claim, Started)
      modifies `history, `trace, `proc, `log
      ensures On(due, it, claim, if ok then Delivered else Refused) && Uninterrupted()
      ensures log.sends == if ok then old(log.sends) + multiset{it.id} else old(log.sends)
    {
      Take(Abs(), Send(ok));
    }

    /** The counting statement never misses its row: the claim is still held. */
    method StartAttemptNow(ghost due: seq<DueIntent>, it: DueIntent, claim: nat)
      requires On(due, it, claim, Ready)
      modifies `intents, `history, `trace, `proc, `log
      ensures On(due, it, claim, Started) && Uninterrupted()
    {
      ghost var before := Abs();
      Reachable();
      ClaimHeld();
      var updated := CountAttemptNow(it.id, claim);
      Take(before, StartAttempt);
    }

    lemma ClaimHeld()
      requires Inv(Abs()) && proc.Working?
      ensures HoldsOpen(Db(), proc.it.id, proc.token)
    {
      assert AccountOk(AccountOf(Abs(), proc.it.id), log.nextToken);
    }

    method RecordNow(ghost due: seq<DueIntent>, it: DueIntent, claim: nat, ghost stage: Stage, status: DeliveryStatus)
      requires On(due, it, claim, stage) && stage in {Suppressing, Throttled, Delivered, Refused}
      requires Recorded(it, stage).0 == status
      modifies `deliveries, `history, `trace, `proc, `log
      ensures On(due, it, claim, Recorded(it, stage).1) && Uninterrupted()
      ensures log.sends == old(log.sends)
    {
      ghost var before := Abs();
      RecordAttempt(it, status);
      Take(before, Record);
    }

    method CloseNow(ghost due: seq<DueIntent>, it: DueIntent, claim: nat, ending: Ending)
      requires On(due, it, claim, Closing(ending))
      modifies `intents, `alerts, `nextAlert, `history, `trace, `proc, `log
      ensures Valid() && proc == Draining(due) && Uninterrupted()
      ensures log.sends == old(log.sends)
    {
      ghost var before := Abs();
      ApplyEnding(it, claim, ending);
      Take(before, Close);
    }

    // ---- process_intent ----

    /** The statement that ends the work on an intent. */
    method CloseIntent(ghost due: seq<DueIntent>, it: DueIntent, claim: nat, ending: Ending) returns (end: Ended)
      requires On(due, it, claim, Closing(ending)) && ending != RetryInternal
      modifies this
      ensures Left(end, due, it, claim) && log.sends == old(log.sends)
    {
      var answer;
      end, answer := Await();
      if end == Done {
        CloseNow(due, it, claim, ending);
      }
    }

    method RecordAndClose(ghost due: seq<DueIntent>, it: DueIntent, claim: nat,
                          ghost stage: Stage, status: DeliveryStatus, ending: Ending) returns (end: Ended)
      requires On(due, it, claim, stage) && ending != RetryInternal
      requires stage in {Suppressing, Throttled, Delivered, Refused} && Recorded(it, stage) == (status, Closing(ending))
      modifies this
      ensures Left(end, due, it, claim) && log.sends == old(log.sends)
    {
      var answer;
      end, answer := Await();
      if end == Done {
        RecordNow(due, it, claim, stage, status);
        end := CloseIntent(due, it, claim, ending);
      }
    }

    /** Recover an earlier sent row, or go on. */
    method ProcessIntent(ghost due: seq<DueIntent>, it: DueIntent, claim: nat) returns (end: Ended)
      requires On(due, it, claim, Claimed)
      modifies this
      ensures Left(end, due, it, claim)
    {
      var answer;
      end, answer := Await();
      if end == Done {
        var sent := IntentAlreadySent(it.id);
        TookCheck(due, it, claim, Claimed, CheckSent);
        if sent {
          end := CloseIntent(due, it, claim, SettleRecovered);
        } else {
          end := Deduplicate(due, it, claim);
        }
      }
    }

    method Deduplicate(ghost due: seq<DueIntent>, it: DueIntent, claim: nat) returns (end: Ended)
      requires On(due, it, claim, Unsent)
      modifies this
      ensures Left(end, due, it, claim)
    {
      var answer;
      end, answer := Await();
      if end == Done {
        var immediate := ImmediateIt(Db(), it);
        var found := RecentlyDeliveredNow(it);
        TookCheck(due, it, claim, Unsent, CheckDedup);
        if !immediate && found {
          end := RecordAndClose(due, it, claim, Suppressing, QueuedRow, SettleSuppressed);
        } else {
          end := LimitRate(due, it, claim);
        }
      }
    }

    method LimitRate(ghost due: seq<DueIntent>, it: DueIntent, claim: nat) returns (end: Ended)
      requires On(due, it, claim, Fresh)
      modifies this
      ensures Left(end, due, it, claim)
    {
      var answer;
      end, answer := Await();
      if end == Done {
        var immediate := ImmediateIt(Db(), it);
        var over := OverRateLimitNow(it);
        TookCheck(due, it, claim, Fresh, CheckRate);
        if !immediate && over {
          end := RecordAndClose(due, it, claim, Throttled, QueuedRow, RetryThrottled);
        } else {
          end := NeedMailer(due, it, claim);
        }
      }
    }

    method NeedMailer(ghost due: seq<DueIntent>, it: DueIntent, claim: nat) returns (end: Ended)
      requires On(due, it, claim, Admitted)
      modifies this
      ensures Left(end, due, it, claim)
    {
      var available;
      end, available := Await();
      if end == Done {
        TookCheck(due, it, claim, Admitted, CheckMailer(available));
        if it.target.Some? && it.target.value.Recipient? && !available {
          end := CloseIntent(due, it, claim, RetryNoMailer);
        } else {
          end := Attempt(due, it, claim);
        }
      }
    }

    /** Count the attempt before anything leaves. */
    method Attempt(ghost due: seq<DueIntent>, it: DueIntent, claim: nat) returns (end: Ended)
      requires On(due, it, claim, Ready)
      modifies this
      ensures Left(end, due, it, claim)
    {
      var answer;
      end, answer := Await();
      if end == Done {
        StartAttemptNow(due, it, claim);
        end := SendTarget(due, it, claim);
      }
    }

    /** One call to the mailer or webhook: what it answers is what the books say left. */
    method Deliver(ghost due: seq<DueIntent>, it: DueIntent, claim: nat) returns (end: Ended, ok: bool)
      requires On(due, it, claim, Started)
      modifies this
      ensures end != Done ==> Left(end, due, it, claim)
      ensures end == Done ==> On(due, it, claim, if ok then Delivered else Refused) && Uninterrupted()
      ensures end == Done ==> log.sends == if ok then old(log.sends) + multiset{it.id} else old(log.sends)
      ensures end == Done && old(cursor) < |weather| ==> ok == weather[old(cursor)].answer
      ensures old(cursor) <= cursor
    {
      end, ok := Await();
      if end == Done {
        TookSend(due, it, claim, ok);
      }
    }

    /** Send, then record and close according to the answer. */
    method SendTarget(ghost due: seq<DueIntent>, it: DueIntent, claim: nat) returns (end: Ended)
      requires On(due, it, claim, Started)
      modifies this
      ensures Left(end, due, it, claim)
      ensures end == Done && old(cursor) < |weather| ==>
        log.sends == old(log.sends) + (if weather[old(cursor)].answer then multiset{it.id} else multiset{})
    {
      var ok;
      end, ok := Deliver(due, it, claim);
      if end == Done {
        if ok {
          end := RecordAndClose(due, it, claim, Delivered, SentRow, SettleSent);
        } else if it.attempts + 1 >= MAX_DELIVERY_ATTEMPTS {
          end := RecordAndClose(due, it, claim, Refused, FailedRow, GiveUp);
        } else {
          end := RecordAndClose(due, it, claim, Refused, FailedRow, RetryFailed);
        }
      }
    }

    // ---- materialize_alert and materialize_batch ----

    /** The audience query, its rows in whatever order they come. */
    method ResolveTargets(a: Alert) returns (targets: seq<Target>)
      ensures Lists(targets, Audience(directory, a))
    {
      var todo := Audience(directory, a);
      targets := [];
      while todo != {}
        invariant AllDifferent(targets)
        invariant Members(targets) !! todo && Members(targets) + todo == Audience(directory, a)
        decreases todo
      {
        var x :| x in todo;
        assert Members(targets + [x]) == Members(targets) + {x};
        targets, todo := targets + [x], todo - {x};
      }
    }

    /** INSERT IGNORE under the unique key (alert, channel, target). */
    method InsertIgnore(rows: map<nat, Intent>, next: nat, a: nat, target: Target)
      returns (rows': map<nat, Intent>, next': nat)
      ensures if KeyTaken(rows, a, target) then rows' == rows && next' == next
              else rows' == rows[next := NewIntent(a, target, now)] && next' == next + 1
    {
      rows', next' := rows, next;
      if !KeyTaken(rows, a, target) {
        rows', next' := rows[next := NewIntent(a, target, now)], next + 1;
      }
    }

    /** The transaction body: one row per target, and the no-audience row when none resulted. */
    method InsertTargets(a: nat, targets: seq<Target>)
      requires !HasIntents(Db(), a) && AllDifferent(targets)
      modifies `intents, `nextIntent
      ensures Db() == Fanout(old(Db()), a, targets)
    {
      var rows, next := intents, nextIntent;
      ghost var t := Db();
      InsertedNone(t, a, targets);
      for k := 0 to |targets|
        invariant Db() == t && InsertedSoFar(t, a, targets, k, rows, next)
      {
        InsertedOneMore(t, a, targets, k, rows, next);
        rows, next := InsertIgnore(rows, next, a, targets[k]);
      }
      InsertedAll(t, a, targets, rows, next);
      if next == nextIntent {
        rows, next := rows[next := NoAudienceIntent(a, now)], next + 1;
      }
      intents, nextIntent := rows, next;
    }

    /** An error outside process_intent leaves drain_once at once: the pass is over. */
    method Abandon(end: Ended) returns (end': Ended)
      requires Valid() && (end == Halted ==> proc.Resting?)
      modifies `history, `trace, `proc, `log
      ensures Valid() && (end' == Done <==> end == Done) && log.passes == old(log.passes) && Continues()
      ensures end == Done ==> proc == old(proc) && log == old(log)
      ensures end != Done ==> proc.Resting?
    {
      end' := end;
      if end == Failed {
        Take(Abs(), Crash);
        end' := Halted;
      }
    }

    ghost method TookBatch(critical: seq<nat>, normal: seq<nat>)
      requires Valid() && proc.Resting? && IsBatch(Db(), true, critical) && IsBatch(Db(), false, normal)
      modifies `history, `trace, `proc, `log
      ensures Valid() && proc == Materializing(critical + normal) && Underway()
    {
      Take(Abs(), ReadBatch(critical, normal));
    }

    lemma BatchHeadWaits()
      requires Valid() && proc.Materializing? && proc.batch != []
      ensures proc.batch[0] in alerts && !HasIntents(Db(), proc.batch[0])
    {
      Reachable();
    }

    method MaterializeAlert(batch: seq<nat>) returns (end: Ended)
      requires Valid() && batch != [] && proc == Materializing(batch)
      modifies this
      ensures Valid() && (end != Done ==> proc.Resting? && Stopped() && log.passes == old(log.passes)) && Continues()
      ensures end == Done ==> proc == Materializing(batch[1..]) && Underway()
    {
      var answer;
      end, answer := Await();
      if end == Done {
        ghost var before := Abs();
        BatchHeadWaits();
        var targets := ResolveTargets(alerts[batch[0]]);
        InsertTargets(batch[0], targets);
        Take(before, Materialize(targets));
      } else {
        end := Abandon(end);
      }
    }

    method MaterializeBatch() returns (end: Ended)
      requires Valid() && proc.Resting?
      modifies this
      ensures Valid() && (end != Done ==> proc.Resting? && Stopped() && log.passes == old(log.passes)) && Continues()
      ensures end == Done ==> proc == Materializing([]) && Underway()
    {
      var answer;
      end, answer := Await();
      if end != Done {
        end := Abandon(end);
        return;
      }
      var critical := TakeLowest(UnmaterializedKeys(Db(), true), CRITICAL_SLOTS);
      var normal := TakeLowest(UnmaterializedKeys(Db(), false), NORMAL_SLOTS);
      TookBatch(critical, normal);
      var batch := critical + normal;
      while batch != []
        invariant Valid() && proc == Materializing(batch) && Underway()
        decreases |batch|
      {
        end := MaterializeAlert(batch);
        if end != Done { return; }
        batch := batch[1..];
      }
      end := Done;
    }

    // ---- drain_once ----

    method SnapshotAll(ids: seq<nat>) returns (due: seq<DueIntent>)
      requires forall i | i in ids :: i in intents
      ensures Ids(due) == ids
      ensures forall k | 0 <= k < |due| :: due[k].id in intents && due[k] == Snapshot(Db(), due[k].id)
    {
      due := [];
      for k := 0 to |ids|
        invariant |due| == k
        invariant forall j | 0 <= j < k :: due[j].id == ids[j] && due[j] == Snapshot(Db(), ids[j])
      {
        assert ids[k] in ids;
        due := due + [Snapshot(Db(), ids[k])];
      }
      assert Ids(due) == ids;
    }

    method QueryDue(critical: bool) returns (due: seq<DueIntent>)
      ensures IsDue(Db(), critical, due)
    {
      var ids := TakeLowest(DueKeys(Db(), critical), SlotsFor(critical));
      due := SnapshotAll(ids);
    }

    method ReadDueNow() returns (due: seq<DueIntent>)
      requires Valid() && proc == Materializing([])
      modifies `history, `trace, `proc, `log
      ensures Valid() && proc == Draining(due) && Underway()
    {
      var urgent := QueryDue(true);
      var other := QueryDue(false);
      due := urgent + other;
      Take(Abs(), ReadDue(urgent, other));
    }

    /** UPDATE ... SET claim_token, under the same eligibility as the query. */
    method Claim(due: seq<DueIntent>) returns (claimed: bool, claim: nat)
      requires Valid() && due != [] && proc == Draining(due)
      modifies `intents, `nextToken, `history, `trace, `proc, `log
      ensures Underway()
      ensures if claimed then On(due[1..], due[0], claim, Claimed) else Valid() && proc == Draining(due[1..])
    {
      ghost var before := Abs();
      var i := due[0].id;
      claim := nextToken;
      claimed := i in intents && Eligible(Db(), i);
      if claimed {
        intents := intents[i := intents[i].(token := Some(claim), claimedAt := Some(now))];
        nextToken := nextToken + 1;
      }
      Take(before, ClaimNext);
    }

    ghost method TookFault(due: seq<DueIntent>, it: DueIntent, claim: nat)
      requires Valid() && proc.Working? && proc == Working(due, it, claim, proc.stage) && proc.stage != Closing(RetryInternal)
      modifies `history, `trace, `proc, `log
      ensures On(due, it, claim, Closing(RetryInternal)) && Underway()
    {
      Take(Abs(), Fault);
    }

    /** release_claim_after_internal_error, itself one statement that may fail. */
    method ReleaseClaim(ghost due: seq<DueIntent>, it: DueIntent, claim: nat) returns (end: Ended)
      requires Valid() && proc.Working? && proc == Working(due, it, claim, proc.stage) && proc.stage != Closing(RetryInternal)
      modifies this
      ensures Valid() && (end != Done ==> proc.Resting? && Stopped() && log.passes == old(log.passes)) && Continues()
      ensures end == Done ==> proc == Draining(due) && Underway()
    {
      TookFault(due, it, claim);
      var answer;
      end, answer := Await();
      if end == Done {
        CloseNow(due, it, claim, RetryInternal);
      } else {
        end := Abandon(end);
      }
    }

    method DrainDue(all: seq<DueIntent>) returns (end: Ended)
      requires Valid() && proc == Draining(all)
      modifies this
      ensures Valid() && (end != Done ==> proc.Resting? && Stopped() && log.passes == old(log.passes)) && Continues()
      ensures end == Done ==> proc == Draining([]) && Underway()
    {
      var due := all;
      while due != []
        invariant Valid() && proc == Draining(due) && Underway()
        decreases |due|
      {
        end := DrainOne(due);
        if end != Done { return; }
        due := due[1..];
      }
      end := Done;
    }

    /** One iteration of the loop over due intents: claim, process, and release after an internal error. */
    method DrainOne(due: seq<DueIntent>) returns (end: Ended)
      requires Valid() && due != [] && proc == Draining(due)
      modifies this
      ensures Valid() && (end != Done ==> proc.Resting? && Stopped() && log.passes == old(log.passes)) && Continues()
      ensures end == Done ==> proc == Draining(due[1..]) && Underway()
    {
      var answer;
      end, answer := Await();
      if end != Done {
        end := Abandon(end);
        return;
      }
      var claimed, claim := Claim(due);
      if claimed {
        end := ProcessIntent(due[1..], due[0], claim);
        if end == Failed {
          end := ReleaseClaim(due[1..], due[0], claim);
        }
      }
    }

    /**
     One pass. It completes unless a statement outside process_intent failed or the process stopped; a complete
     pass materialized its whole batch, worked through every intent that was due, and ended with its
     own label.
     */
    method DrainOnce() returns (completed: bool)
      requires Valid() && proc.Resting?
      modifies this
      ensures Valid() && proc.Resting? && Continues()
      ensures if completed then log.passes == old(log.passes) + 1 && log.crashes == old(log.crashes)
              else log.passes == old(log.passes) && Stopped()
    {
      var end, answer;
      end := MaterializeBatch();
      if end != Done { return false; }
      end, answer := Await();
      if end != Done {
        end := Abandon(end);
        return false;
      }
      var due := ReadDueNow();
      end := DrainDue(due);
      if end != Done { return false; }
      Take(Abs(), EndPass);
      return true;
    }
  }
}
