/**
 The alert tables and the effect of every statement the dispatcher sends to the database
 (backend-rust/src/alerts/dispatcher.rs). A statement is atomic; its effect is a function
 from tables to tables. Times are whole seconds, the precision of UTC_TIMESTAMP().
 */
module AlertTables {
  import opened Options
  import opened Ranking

  const DEDUP_WINDOW_SECS := 600
  const RATE_LIMIT_PER_HOUR := 20
  const HOUR_SECS := 3600
  const CRITICAL_SLOTS := 40
  const NORMAL_SLOTS := 10
  const MAX_DELIVERY_ATTEMPTS := 5
  const RETRY_BACKOFF_SECS := 300
  const CLAIM_LEASE_SECS := 120

  const GAVE_UP := "alert_delivery_permanently_failed"

  /** Event types exempt from de-duplication and from the rate limit. */
  const ALWAYS_IMMEDIATE: set<string> := {
    "reroute_uncertain", "reroute_bundle_partial", "reroute_failed", "2fa_recovery_used",
    "account_locked", "operating_mode_changed", "automatic_actions_changed", "global_lock_changed",
    "automatic_action_failed", "recovery_degraded", "rule_auto_disarmed",
    "alert_delivery_permanently_failed"
  }

  type Time = int

  /** A delivery target names its channel: recipients are mailed, endpoints are Teams webhooks. */
  datatype Target = Recipient(recipient: nat) | Endpoint(endpoint: nat)

  datatype DedupKey = Produced(key: string) | GaveUpOn(intent: nat)

  datatype Alert = Alert(eventType: string, severity: string, dedup: DedupKey) {
    predicate Critical() { severity == "critical" }

    predicate Immediate() { eventType in ALWAYS_IMMEDIATE }
  }

  datatype IntentState = Pending | Retry | Settled

  datatype Outcome = Sent | Suppressed | PermanentFailure | NoAudience

  datatype Intent = Intent(
    alert: nat,
    target: Option<Target>,
    state: IntentState,
    outcome: Option<Outcome>,
    attempts: nat,
    nextAttempt: Time,
    claimedAt: Option<Time>,
    token: Option<nat>
  ) {
    predicate Open() { !state.Settled? }
  }

  datatype DeliveryStatus = QueuedRow | SentRow | FailedRow

  datatype Delivery = Delivery(intent: nat, alert: nat, target: Option<Target>, status: DeliveryStatus, at: Time)

  /** Who may be told: the recipient, subscription and endpoint tables. */
  datatype RecipientRow = RecipientRow(verified: bool, admin: bool)

  datatype Directory = Directory(
    recipients: map<nat, RecipientRow>,
    subscriptions: set<(nat, Option<string>)>,
    endpoints: set<nat>,
    hooks: set<(nat, Option<string>)>
  )

  predicate Subscribed(subs: set<(nat, Option<string>)>, id: nat, eventType: string) {
    (id, None) in subs || (id, Some(eventType)) in subs
  }

  /** Verified subscribers, every verified administrator of a critical alert, and subscribed enabled endpoints. */
  function Audience(d: Directory, a: Alert): set<Target> {
    (set r | r in d.recipients && d.recipients[r].verified
             && (Subscribed(d.subscriptions, r, a.eventType) || (a.Critical() && d.recipients[r].admin)) :: Recipient(r))
    + (set e | e in d.endpoints && Subscribed(d.hooks, e, a.eventType) :: Endpoint(e))
  }

  datatype Tables = Tables(
    now: Time,
    alerts: map<nat, Alert>,
    intents: map<nat, Intent>,
    deliveries: seq<Delivery>,
    nextAlert: nat,
    nextIntent: nat,
    directory: Directory
  )

  // ---- the ranked queries ----

  predicate HasIntents(t: Tables, a: nat) {
    exists i | i in t.intents :: t.intents[i].alert == a
  }

  function SlotsFor(critical: bool): nat { if critical then CRITICAL_SLOTS else NORMAL_SLOTS }

  /** Alerts of one severity class with no intent row yet, keyed by id. */
  function UnmaterializedKeys(t: Tables, critical: bool): Keyed {
    map a | a in t.alerts && t.alerts[a].Critical() == critical && !HasIntents(t, a) :: Key(0, 0, a)
  }

  /** The claim's own WHERE clause: open, due, and not under a live lease. */
  predicate Eligible(t: Tables, i: nat)
    requires i in t.intents
  {
    var row := t.intents[i];
    && row.Open()
    && row.nextAttempt <= t.now
    && (row.claimedAt.None? || row.claimedAt.value < t.now - CLAIM_LEASE_SECS)
  }

  function DueKeys(t: Tables, critical: bool): Keyed {
    map i | i in t.intents && Eligible(t, i)
            && t.intents[i].alert in t.alerts && t.alerts[t.intents[i].alert].Critical() == critical
      :: Key(t.intents[i].nextAttempt, t.intents[i].alert, i)
  }

  /** What the due query copies out of one row. */
  datatype DueIntent = DueIntent(id: nat, alert: nat, target: Option<Target>, attempts: nat)

  function Snapshot(t: Tables, i: nat): DueIntent
    requires i in t.intents
  {
    DueIntent(i, t.intents[i].alert, t.intents[i].target, t.intents[i].attempts)
  }

  function Ids(due: seq<DueIntent>): seq<nat> {
    seq(|due|, k requires 0 <= k < |due| => due[k].id)
  }

  // ---- counting delivery rows ----

  /** SELECT COUNT(*) ... WHERE delivery_intent_id = i AND status = 'sent' */
  function SentRows(ds: seq<Delivery>, i: nat): nat {
    if ds == [] then 0 else
      var last := ds[|ds| - 1];
      SentRows(ds[..|ds| - 1], i) + (if last.status.SentRow? && last.intent == i then 1 else 0)
  }

  predicate SentTo(d: Delivery, target: Target) {
    d.status.SentRow? && d.target == Some(target)
  }

  /** SELECT COUNT(*) ... WHERE status = 'sent' AND (the target's channel and id) AND created_at >= since */
  function SentSince(ds: seq<Delivery>, target: Target, since: Time): nat {
    if ds == [] then 0 else
      var last := ds[|ds| - 1];
      SentSince(ds[..|ds| - 1], target, since) + (if SentTo(last, target) && last.at >= since then 1 else 0)
  }

  predicate SameKey(alerts: map<nat, Alert>, a: nat, b: nat) {
    a in alerts && b in alerts && alerts[a].dedup == alerts[b].dedup
  }

  predicate RecentlyDelivered(t: Tables, alert: nat, target: Target) {
    exists q | 0 <= q < |t.deliveries| ::
      && SentTo(t.deliveries[q], target)
      && SameKey(t.alerts, t.deliveries[q].alert, alert)
      && t.deliveries[q].at >= t.now - DEDUP_WINDOW_SECS
  }

  predicate OverRateLimit(t: Tables, target: Target) {
    SentSince(t.deliveries, target, t.now - HOUR_SECS) >= RATE_LIMIT_PER_HOUR
  }

  // ---- the writes ----

  function NewIntent(alert: nat, target: Target, now: Time): Intent {
    Intent(alert, Some(target), Pending, None, 0, now, None, None)
  }

  function NoAudienceIntent(alert: nat, now: Time): Intent {
    Intent(alert, None, Settled, Some(NoAudience), 0, now, None, None)
  }

  /** The committed transaction of materialize_alert for an alert without intents. */
  function Fanout(t: Tables, alert: nat, targets: seq<Target>): Tables {
    if targets == [] then
      t.(intents := t.intents[t.nextIntent := NoAudienceIntent(alert, t.now)], nextIntent := t.nextIntent + 1)
    else
      t.(intents := t.intents + FreshRows(t, alert, targets), nextIntent := t.nextIntent + |targets|)
  }

  /** The ids lo, lo + 1, ..., lo + n - 1. */
  function Span(lo: nat, n: nat): (r: set<nat>)
    ensures forall k: nat :: k in r <==> lo <= k < lo + n
  {
    if n == 0 then {} else Span(lo, n - 1) + {lo + n - 1}
  }

  function FreshRows(t: Tables, alert: nat, targets: seq<Target>): map<nat, Intent> {
    map k | k in Span(t.nextIntent, |targets|) :: NewIntent(alert, targets[k - t.nextIntent], t.now)
  }

  function InsertAlert(t: Tables, a: Alert): Tables {
    t.(alerts := t.alerts[t.nextAlert := a], nextAlert := t.nextAlert + 1)
  }

  function ClaimRow(t: Tables, i: nat, token: nat): Tables
    requires i in t.intents
  {
    t.(intents := t.intents[i := t.intents[i].(token := Some(token), claimedAt := Some(t.now))])
  }

  /** WHERE id = i AND claim_token = token */
  predicate Holds(t: Tables, i: nat, token: nat) {
    i in t.intents && t.intents[i].token == Some(token)
  }

  /** WHERE id = i AND claim_token = token AND state IN ('pending','retry') */
  predicate HoldsOpen(t: Tables, i: nat, token: nat) {
    Holds(t, i, token) && t.intents[i].Open()
  }

  function CountAttempt(t: Tables, i: nat, token: nat): Tables {
    if HoldsOpen(t, i, token) then
      t.(intents := t.intents[i := t.intents[i].(attempts := t.intents[i].attempts + 1)])
    else t
  }

  function RetryRow(t: Tables, i: nat, token: nat): Tables {
    if Holds(t, i, token) then
      t.(intents := t.intents[i := t.intents[i].(
        state := Retry, nextAttempt := t.now + RETRY_BACKOFF_SECS, token := None, claimedAt := None)])
    else t
  }

  function SettleRow(t: Tables, i: nat, token: nat, outcome: Outcome): Tables {
    if Holds(t, i, token) then
      t.(intents := t.intents[i := t.intents[i].(
        state := Settled, outcome := Some(outcome), token := None, claimedAt := None)])
    else t
  }

  /** The follow-up alert of a delivery that was given up on. */
  function GaveUpAlert(i: nat): Alert { Alert(GAVE_UP, "critical", GaveUpOn(i)) }

  /** settle_permanent_failure: one transaction, and no second alert for a failed failure alert. */
  function GiveUpRow(t: Tables, i: nat, token: nat, alert: nat): Tables {
    var settled := SettleRow(t, i, token, PermanentFailure);
    if alert in t.alerts && t.alerts[alert].eventType == GAVE_UP then settled
    else InsertAlert(settled, GaveUpAlert(i))
  }

  function RecordRow(t: Tables, it: DueIntent, status: DeliveryStatus): Tables {
    t.(deliveries := t.deliveries + [Delivery(it.id, it.alert, it.target, status, t.now)])
  }
}
