/**
 The dispatcher as a state machine. One label is one statement (or one external call) of
 drain_once, materialize_batch or process_intent; between any two labels the clock may move,
 producers may insert alerts, subscriptions may change, a statement may fail (Fault) and the
 process may stop (Crash). A stopped process starts again with a fresh pass.
 */
module AlertProtocol {
  import opened Options
  import opened Ranking
  import opened AlertTables

  datatype Ending =
    | SettleSent          // after this attempt's own sent row
    | SettleRecovered     // an earlier attempt's sent row was found
    | SettleSuppressed
    | GiveUp
    | RetryFailed
    | RetryThrottled
    | RetryNoMailer
    | RetryInternal

  /** What process_intent does next for the claimed intent. */
  datatype Stage =
    | Claimed | Unsent | Fresh | Admitted | Ready | Started
    | Suppressing | Throttled | Delivered | Refused
    | Closing(ending: Ending)

  datatype Proc =
    | Resting
    | Materializing(batch: seq<nat>)
    | Draining(due: seq<DueIntent>)
    | Working(due: seq<DueIntent>, it: DueIntent, token: nat, stage: Stage)

  /**
   What happened so far, per intent: messages that really left, those whose sent row was lost to an
   interruption, attempts cut short, attempts that failed and were closed, attempts closed as sent,
   and when the de-duplication check last found an equal message. The last three fields count
   completed passes, crashes and failed statements.
   */
  datatype History = History(
    sends: multiset<nat>,
    lost: multiset<nat>,
    interrupted: multiset<nat>,
    failures: multiset<nat>,
    successes: multiset<nat>,
    dedupHits: map<nat, Time>,
    nextToken: nat,
    passes: nat,
    crashes: nat,
    faults: nat
  )

  datatype State = State(db: Tables, proc: Proc, log: History)

  datatype Label =
    | Wait(seconds: nat)
    | Produce(alert: Alert)
    | EditDirectory(directory: Directory)
    | ReadBatch(critical: seq<nat>, normal: seq<nat>)
    | Materialize(targets: seq<Target>)
    | ReadDue(urgent: seq<DueIntent>, other: seq<DueIntent>)
    | ClaimNext
    | EndPass
    | CheckSent
    | CheckDedup
    | CheckRate
    | CheckMailer(available: bool)
    | StartAttempt
    | Send(ok: bool)
    | Record
    | Close
    | Fault
    | Crash

  ghost predicate IsBatch(t: Tables, critical: bool, batch: seq<nat>) {
    IsLowest(UnmaterializedKeys(t, critical), SlotsFor(critical), batch)
  }

  ghost predicate IsDue(t: Tables, critical: bool, due: seq<DueIntent>) {
    && IsLowest(DueKeys(t, critical), SlotsFor(critical), Ids(due))
    && forall k | 0 <= k < |due| :: due[k].id in t.intents && due[k] == Snapshot(t, due[k].id)
  }

  function Members(targets: seq<Target>): set<Target> { set x | x in targets }

  ghost predicate AllDifferent(targets: seq<Target>) {
    forall j, k | 0 <= j < k < |targets| :: targets[j] != targets[k]
  }

  /** The targets are the audience, each once, in some order. */
  ghost predicate Lists(targets: seq<Target>, audience: set<Target>) {
    AllDifferent(targets) && Members(targets) == audience
  }

  predicate ImmediateIt(t: Tables, it: DueIntent) {
    it.alert in t.alerts && t.alerts[it.alert].Immediate()
  }

  /** An attempt has been counted and not yet closed. */
  predicate InAttempt(stage: Stage) {
    || stage in {Started, Delivered, Refused}
    || (stage.Closing? && stage.ending in {SettleSent, GiveUp, RetryFailed})
  }

  ghost predicate Enabled(s: State, l: Label) {
    match l
    case Wait(_) => true
    case Produce(_) => true
    case EditDirectory(_) => true
    case ReadBatch(c, n) => s.proc.Resting? && IsBatch(s.db, true, c) && IsBatch(s.db, false, n)
    case Materialize(targets) =>
      && s.proc.Materializing? && s.proc.batch != []
      && s.proc.batch[0] in s.db.alerts
      && Lists(targets, Audience(s.db.directory, s.db.alerts[s.proc.batch[0]]))
    case ReadDue(u, o) =>
      s.proc.Materializing? && s.proc.batch == [] && IsDue(s.db, true, u) && IsDue(s.db, false, o)
    case ClaimNext => s.proc.Draining? && s.proc.due != []
    case EndPass => s.proc.Draining? && s.proc.due == []
    case CheckSent => s.proc.Working? && s.proc.stage.Claimed?
    case CheckDedup => s.proc.Working? && s.proc.stage.Unsent?
    case CheckRate => s.proc.Working? && s.proc.stage.Fresh?
    case CheckMailer(_) => s.proc.Working? && s.proc.stage.Admitted?
    case StartAttempt => s.proc.Working? && s.proc.stage.Ready?
    case Send(_) => s.proc.Working? && s.proc.stage.Started?
    case Record => s.proc.Working? && s.proc.stage in {Suppressing, Throttled, Delivered, Refused}
    case Close => s.proc.Working? && s.proc.stage.Closing?
    case Fault => s.proc.Working? && s.proc.stage != Closing(RetryInternal)
    case Crash => true
  }

  function Recently(t: Tables, it: DueIntent): bool {
    it.target.Some? && RecentlyDelivered(t, it.alert, it.target.value)
  }

  function OverLimit(t: Tables, it: DueIntent): bool {
    it.target.Some? && OverRateLimit(t, it.target.value)
  }

  /** The stage reached by a check, from the tables as they are now. */
  function Checked(t: Tables, it: DueIntent, stage: Stage, mailer: bool): Stage {
    match stage
    case Claimed => if SentRows(t.deliveries, it.id) > 0 then Closing(SettleRecovered) else Unsent
    case Unsent => if !ImmediateIt(t, it) && Recently(t, it) then Suppressing else Fresh
    case Fresh => if !ImmediateIt(t, it) && OverLimit(t, it) then Throttled else Admitted
    case Admitted => if it.target.Some? && it.target.value.Recipient? && !mailer then Closing(RetryNoMailer) else Ready
    case _ => stage
  }

  /** The row a recording stage inserts, and the stage after it. */
  function Recorded(it: DueIntent, stage: Stage): (DeliveryStatus, Stage) {
    match stage
    case Delivered => (SentRow, Closing(SettleSent))
    case Refused => (FailedRow, Closing(if it.attempts + 1 >= MAX_DELIVERY_ATTEMPTS then GiveUp else RetryFailed))
    case Throttled => (QueuedRow, Closing(RetryThrottled))
    case _ => (QueuedRow, Closing(SettleSuppressed))
  }

  function ClosedRow(t: Tables, it: DueIntent, token: nat, ending: Ending): Tables {
    match ending
    case SettleSent => SettleRow(t, it.id, token, Outcome.Sent)
    case SettleRecovered => SettleRow(t, it.id, token, Outcome.Sent)
    case SettleSuppressed => SettleRow(t, it.id, token, Suppressed)
    case GiveUp => GiveUpRow(t, it.id, token, it.alert)
    case _ => RetryRow(t, it.id, token)
  }

  function LogClose(h: History, i: nat, ending: Ending): History {
    match ending
    case SettleSent => h.(successes := h.successes + multiset{i})
    case GiveUp => h.(failures := h.failures + multiset{i})
    case RetryFailed => h.(failures := h.failures + multiset{i})
    case _ => h
  }

  /** The books after process_intent is left at `proc` without reaching its closing statement. */
  function LogInterruption(h: History, proc: Proc): History {
    if proc.Working? && InAttempt(proc.stage) then
      var h' := h.(interrupted := h.interrupted + multiset{proc.it.id});
      if proc.stage.Delivered? then h'.(lost := h'.lost + multiset{proc.it.id}) else h'
    else h
  }

  ghost function Step(s: State, l: Label): State
    requires Enabled(s, l)
  {
    match l
    case Wait(d) => s.(db := s.db.(now := s.db.now + d))
    case Produce(a) => s.(db := InsertAlert(s.db, a))
    case EditDirectory(d) => s.(db := s.db.(directory := d))
    case ReadBatch(c, n) => s.(proc := Materializing(c + n))
    case Materialize(targets) =>
      s.(db := Fanout(s.db, s.proc.batch[0], targets), proc := Materializing(s.proc.batch[1..]))
    case ReadDue(u, o) => s.(proc := Draining(u + o))
    case ClaimNext =>
      var it, rest := s.proc.due[0], s.proc.due[1..];
      if it.id in s.db.intents && Eligible(s.db, it.id) then
        State(ClaimRow(s.db, it.id, s.log.nextToken),
              Working(rest, it, s.log.nextToken, Claimed),
              s.log.(nextToken := s.log.nextToken + 1))
      else s.(proc := Draining(rest))
    case EndPass => s.(proc := Resting, log := s.log.(passes := s.log.passes + 1))
    case CheckSent => s.(proc := s.proc.(stage := Checked(s.db, s.proc.it, s.proc.stage, true)))
    case CheckDedup =>
      var next := Checked(s.db, s.proc.it, s.proc.stage, true);
      s.(proc := s.proc.(stage := next),
         log := if next.Suppressing? then s.log.(dedupHits := s.log.dedupHits[s.proc.it.id := s.db.now]) else s.log)
    case CheckRate => s.(proc := s.proc.(stage := Checked(s.db, s.proc.it, s.proc.stage, true)))
    case CheckMailer(ok) => s.(proc := s.proc.(stage := Checked(s.db, s.proc.it, s.proc.stage, ok)))
    case StartAttempt =>
      var p := s.proc;
      State(CountAttempt(s.db, p.it.id, p.token),
            p.(stage := if HoldsOpen(s.db, p.it.id, p.token) then Started else Closing(RetryInternal)),
            s.log)
    case Send(ok) =>
      s.(proc := s.proc.(stage := if ok then Delivered else Refused),
         log := if ok then s.log.(sends := s.log.sends + multiset{s.proc.it.id}) else s.log)
    case Record =>
      var (status, next) := Recorded(s.proc.it, s.proc.stage);
      s.(db := RecordRow(s.db, s.proc.it, status), proc := s.proc.(stage := next))
    case Close =>
      State(ClosedRow(s.db, s.proc.it, s.proc.token, s.proc.stage.ending),
            Draining(s.proc.due),
            LogClose(s.log, s.proc.it.id, s.proc.stage.ending))
    case Fault =>
      s.(proc := s.proc.(stage := Closing(RetryInternal)),
         log := LogInterruption(s.log, s.proc).(faults := s.log.faults + 1))
    case Crash => s.(proc := Resting, log := LogInterruption(s.log, s.proc).(crashes := s.log.crashes + 1))
  }

  /** Every label of the run is enabled where it is taken. */
  ghost predicate Runs(s: State, ls: seq<Label>)
    decreases |ls|
  {
    ls == [] || (Enabled(s, ls[0]) && Runs(Step(s, ls[0]), ls[1..]))
  }

  ghost function After(s: State, ls: seq<Label>): State
    requires Runs(s, ls)
    decreases |ls|
  {
    if ls == [] then s else After(Step(s, ls[0]), ls[1..])
  }

  lemma {:induction false} RunsConcat(s: State, a: seq<Label>, b: seq<Label>)
    requires Runs(s, a) && Runs(After(s, a), b)
    ensures Runs(s, a + b) && After(s, a + b) == After(After(s, a), b)
    decreases |a|
  {
    if a == [] {
      assert a + b == b;
    } else {
      RunsConcat(Step(s, a[0]), a[1..], b);
      assert (a + b)[1..] == a[1..] + b;
    }
  }

  /** A controller that has just started on tables no intent of which exists yet. */
  ghost predicate Initial(s: State) {
    && s.proc.Resting?
    && s.db.intents == map[] && s.db.deliveries == []
    && (forall a | a in s.db.alerts :: a < s.db.nextAlert)
    && s.log == History(multiset{}, multiset{}, multiset{}, multiset{}, multiset{}, map[], 0, 0, 0, 0)
  }
}
