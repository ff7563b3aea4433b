# Verified model of the Rerouter controller

Rerouter is a controller that polls routers, detects traffic anomalies, alerts operators and runs or reverses
routing mitigations. This project models the parts of it whose correctness depends on order, interruption,
concurrency or arithmetic over many runs, and proves what they keep.

- **Alert dispatcher** (`AlertTables`, `AlertProtocol`, `AlertSafety`, `AlertLimits`, `AlertChecks`, `AlertFairness`,
  `AlertDrain`, `AlertQueue`, `AlertWitness`, `AlertDispatcher`, `Ranking`). The tables and the effect of each SQL statement; a state
  machine whose every step is one statement, one send, a crash or a database error; whole-run theorems about that machine; and a class that
  updates the tables in place, statement by statement, and whose methods are proved to be runs of the machine.
- **Discovery schedule and poll deadlines** (`DiscoveryTables`, `DiscoveryFairness`, `DiscoveryClass`, `PollDeadlines`).
- **Retention** (`Retention`, `AlertRetention`, `RetentionLimits`, `RetentionWitness`): the batched delete loop, the cascade
  from dropped flow exporters, and retention of alerts running beside the dispatcher, with what it does to both limits.
- **Cadence retuning planner** (`RetunePlan`, `RetuneScript`, `RetuneSafety`, `RetuneMeaning`, `RetuneInput`, `Sorting`).
- **Rule and preset definitions, arming, previews and admission** (`DefinitionTables`, `DefinitionSafety`,
  `DefinitionMeaning`, `DefinitionEditors`, `AdmissionTables`, `AdmissionRows`, `AdmissionSafety`, `AdmissionCurrent`,
  `AdmissionMeaning`, `AdmissionExample`, `AdmissionDesk`).
- **Release snapshot comparison** (`SnapshotDiff`, `SnapshotMeaning`), **URL redaction** (`Redaction`), **authentication counters**
  (`Authentication`, `AuthenticationLimits`) and the **last-superadmin guard** (`Superadmins`).

Conventions: a table is a map from primary key to row; a transaction or a single SQL statement is one step; clocks,
random values, the network and the answers of other services are parameters or nondeterministic steps. Classes hold
the fields that the source updates in place, and each method is tied to a function of the old state about which the
theorems are proved. The modules named for meaning, checks and input say what those functions decide and store in terms
of the rows alone: when exactly each step is taken, and every field it leaves.

## What the proofs found

- **Removing a router changes rules silently.** `DELETE /api/devices/{id}` cascades into `rule_actions`
  (`backend-rust/migrations/20260613000700_rule_actions.sql:20`) without raising `actions_revision` or disarming the
  rule. So "every change to a rule's actions raises its revision" and "an armed rule is exactly what was armed" hold
  except for that step: `DefinitionSafety.RevisionHoldsIff` and `ArmedStepIff` say exactly when, and
  `RemovalShortensArmedRule` gives an armed rule that loses one of its two actions. A caller can check beforehand that no
  rule acts on the router.
- **The action ledger, not the revision, stops a run on a removed router.** What was read earlier still passes the
  revision check (`AdmissionCurrent.RemovalPassesRevisionCheck`), and is current exactly when all its routers are still
  enrolled (`StartIsCurrentIff`). The foreign key of `reroute_bundle_actions` does the rest: an admitted confirmation
  and a prepared run always had exactly the current rows (`RunStartsOnCurrentRows`, `PreparedOnCurrentRows`). What
  remains: after such a removal a plan is used up by a confirmation that creates a run and refuses it
  (`RemovalRefusesConfirmation`), and a direct request publishes a run of rows that are gone, which is never prepared
  (`StaleDirectRun`); `AdmissionExample` gives a run from a fresh site for each.
- **Attempts are not bounded by 5 alone.** A crash between counting an attempt and settling burns a count, so the bound
  is five plus the interrupted attempts (`AlertSafety.AttemptsBounded`), and for every k a run attains 5 + k
  (`AlertWitness.AttemptsReached`); uninterrupted failures are at most five.
- **Retention can break both message limits.** Deleting a delivered alert past its window cascades to its delivery rows
  (`backend-rust/migrations/20260612000600_alerts.sql:67`), however recent they are. `RetentionWitness.LimitsFailUnguarded`
  is a run from a fresh start with a twenty-first paced message within the hour, which also repeats the first one's key in
  the same second. Over an archive that forgets nothing, the hourly limit holds in every run in which no deletion takes an
  alert with a message of the last hour, and the ten-minute gap likewise with ten minutes
  (`RetentionLimits.HourlyLimitWithRetention`, `DedupGapWithRetention`); that can be looked up before the DELETE.
- **Guesses in flight together count separately.** The lock is read before the guess is verified and the failure
  recorded afterwards, so with c requests in flight a span of T seconds evaluates up to
  threshold - 1 + c * (1 + T / window) wrong guesses; that bound is reached (`AuthenticationLimits.BoundReached`).
  For c = 1 it is threshold + T / window.
- **An identity holding a dot can never be a predicted repair**, because predictions are split at their first two dots
  (`SnapshotDiff.AcceptableIff`, `DottedIdentityNeverAccepted`). The identities that the capture script selects are
  integers or digests, so this needs a snapshot made by hand.
- **A request id shared with a later recovery** is answered with the recovery, not with the forward run
  (`AdmissionSafety.ReplayNamesRun`, `RecoveryAnswersForRun`).

## Model

| member | source | states |
|---|---|---|
| AlertSafety.MessagesAccounted | backend-rust/src/alerts/dispatcher.rs:255-342 | over every run with crashes and errors anywhere: at most one sent row per intent, outcome "sent" exactly with that row, and messages that left exceed the row only by those interrupted between the send and its insert |
| AlertSafety.SettledForever | backend-rust/src/alerts/dispatcher.rs:387-420 | once settled, no continuation of the run changes any field of the intent, although retry guards only on the claim token |
| AlertSafety.AttemptsBounded | backend-rust/src/alerts/dispatcher.rs:314-329 | attempts at most five plus the interrupted ones, uninterrupted failures at most five, and giving up only after five attempts |
| AlertWitness.AttemptsReached | backend-rust/src/alerts/dispatcher.rs:314-331 | for every k a run from a fresh start in which an intent is given up on after 5 + k attempts, k of them interrupted: the bound is attained and five alone is not one |
| AlertSafety.ClaimNeverLost | backend-rust/src/alerts/dispatcher.rs:155-175 | with the single consumer, every guarded update of a pass finds its claim: none is silently lost |
| AlertSafety.RunKeeps | backend-rust/src/alerts/dispatcher.rs:126-177 | the full invariant (row shapes, per-intent books, work list distinct and current) holds in every reachable state, and rows and identities only grow |
| AlertSafety.AccountKept | backend-rust/src/alerts/dispatcher.rs:255-331 | every step keeps the books of every intent balanced: attempts against sends, losses, failures and interruptions |
| AlertLimits.HourlyLimit | backend-rust/src/alerts/dispatcher.rs:492-506 | for every target, every window of one hour holds at most 20 sent rows of event types that are not always immediate |
| AlertLimits.DedupGap | backend-rust/src/alerts/dispatcher.rs:472-490 | a paced message is sent to a target more than 600 s after any earlier one with the same key |
| AlertLimits.SuppressedHasWitness | backend-rust/src/alerts/dispatcher.rs:272-282 | each suppressed intent has a sent row of another intent, same key and target, at most 600 s before its check |
| AlertLimits.StepLimits | backend-rust/src/alerts/dispatcher.rs:443-506 | every step keeps rows in time order, each row within the limits at its insert, and each suppression witnessed |
| AlertChecks.ImmediateNeverHeld | backend-rust/src/alerts/dispatcher.rs:271-292 | in no reachable state is an intent of an always-immediate alert suppressed, or on its way to be suppressed or put off |
| AlertChecks.DedupCheckIs | backend-rust/src/alerts/dispatcher.rs:272-282 | a message is held back as a repetition exactly when its event type is not always immediate and a message with its key was sent to its target in the last 600 s |
| AlertChecks.RateCheckIs | backend-rust/src/alerts/dispatcher.rs:287-292 | it is put off exactly when its event type is not always immediate and at least 20 messages were sent to its target in the last hour, counted as a set of rows |
| AlertChecks.SentCheckIs | backend-rust/src/alerts/dispatcher.rs:333-342 | an attempt is skipped exactly when a sent row of the intent exists |
| AlertChecks.MailerCheckIs | backend-rust/src/alerts/dispatcher.rs:293-297 | only mail waits for a mailer |
| AlertChecks.ClaimsApart | backend-rust/src/alerts/dispatcher.rs:155-170 | two claims of one intent are more than 120 s apart, whatever is interrupted between them |
| AlertChecks.RetryWaits | backend-rust/src/alerts/dispatcher.rs:387-400 | after an attempt closed for a retry, for any of the four reasons, the next claim of the intent is at least 300 s later |
| AlertChecks.ClaimIs | backend-rust/src/alerts/dispatcher.rs:156-170 | the claim goes through exactly when the row is open, due and not claimed in the last 120 s, under a fresh token |
| AlertChecks.DueListOrder | backend-rust/src/alerts/dispatcher.rs:128-153 | a due list holds free intents of one severity class as their rows stand, the soonest due first, then the older alert |
| AlertChecks.DueListIs | backend-rust/src/alerts/dispatcher.rs:128-153 | an intent is on it exactly when fewer than 40 (critical) or 10 free ones of its class come sooner |
| AlertChecks.BatchIs | backend-rust/src/alerts/dispatcher.rs:179-200 | an alert is in a batch exactly when it has no intent and fewer than 40 or 10 such alerts of its class are older |
| AlertChecks.MaterializedTellsAll | backend-rust/src/alerts/dispatcher.rs:554-604 | everyone to be told (verified and subscribed, or administrator of a critical alert; subscribed endpoint) gets an untried intent due at once |
| AlertChecks.MaterializedTellsOnly | backend-rust/src/alerts/dispatcher.rs:202-253 | nobody else does, and the no-audience row appears exactly for an alert nobody is to be told of |
| AlertChecks.CloseIs | backend-rust/src/alerts/dispatcher.rs:387-420 | in every reachable state the closing statement finds its row, leaves it as its ending says and free of its claim, and touches no other |
| AlertChecks.LastAttemptIs | backend-rust/src/alerts/dispatcher.rs:318-329 | a refused attempt is recorded as failed and is the last exactly when it was at least the fifth counted |
| AlertChecks.FollowUpIs | backend-rust/src/alerts/dispatcher.rs:508-552 | a final failure raises one critical, always-immediate alert naming the intent, unless its own alert was such a follow-up |
| AlertFairness.MaterializedAtOnce | backend-rust/src/alerts/dispatcher.rs:202-253 | an alert's intents appear in one step as the whole audience of that moment, one per target, or one no-audience row: never zero, and the rest of the run adds and removes none |
| AlertFairness.IntentsFrozen | backend-rust/src/alerts/dispatcher.rs:202-253 | an audience once written never grows or shrinks, whatever is subscribed later |
| AlertFairness.MaterializedWithin | backend-rust/src/alerts/dispatcher.rs:179-200 | with k older unmaterialized alerts of its class, an alert has its intents after k / slots + 1 error-free passes, whatever newer alerts arrive and wherever other passes are cut short |
| AlertQueue.ClaimedWithin | backend-rust/src/alerts/dispatcher.rs:131-170 | from any reachable state at rest, a due intent with k open intents of its class ahead of it by key is claimed within k / slots + 1 completed passes, whatever fails, is interrupted or arrives |
| AlertQueue.AheadShrinks | backend-rust/src/alerts/dispatcher.rs:387-400 | nothing ever gets ahead of a due intent: retries move to now + 300 s and new intents of its class get later keys |
| AlertDrain.CalmStep | backend-rust/src/alerts/dispatcher.rs:508-552 | a measure over alerts, audience and remaining attempts never grows and falls at each materialization or close: a gave-up alert creates work once and never another gave-up alert |
| AlertDrain.BusyPassesBounded | backend-rust/src/alerts/dispatcher.rs:126-177 | however long a calm run is, the passes that find a non-empty batch or due list number at most the initial measure |
| AlertDrain.StretchProgress | backend-rust/src/alerts/dispatcher.rs:387-400 | a calm stretch of at least the retry backoff, with any passes in it, followed by a completed pass uses up work unless everything is drained |
| AlertDrain.Drains | backend-rust/src/alerts/dispatcher.rs:110-177 | from any reachable state at rest, after more such stretches than the measure, every alert has its intents and every intent is settled, with failed sends retried and any number of idle five-second passes in between |
| AlertDrain.DrainedForGood | backend-rust/src/alerts/dispatcher.rs:126-177 | a drained dispatcher stays drained |
| AlertDrain.SleepMakesDue | backend-rust/src/alerts/dispatcher.rs:387-400 | from any reachable state, sleeping out the retry backoff makes every open intent eligible, leases left by crashes included |
| AlertDrain.PassesCounted | backend-rust/src/alerts/dispatcher.rs:126-177 | the pass counter of a run is the number of its completed passes |
| AlertDispatcher.Dispatcher.RunSince | backend-rust/src/alerts/dispatcher.rs:126-177 | any method keeping Valid and Continues has executed a run of the machine from the state it was called in |
| AlertDispatcher.Dispatcher.Reachable | backend-rust/src/alerts/dispatcher.rs:110-177 | every state of a valid dispatcher object is reachable in the machine, so all run theorems apply to it |
| AlertDispatcher.Dispatcher.DrainOnce | backend-rust/src/alerts/dispatcher.rs:126-177 | one pass in place is a run of the machine; it reports completion exactly when a completed pass was counted |
| AlertDispatcher.Dispatcher.DrainOne | backend-rust/src/alerts/dispatcher.rs:155-175 | claim, process and release after an internal error, as a run that leaves the rest of the list to do |
| AlertDispatcher.Dispatcher.Claim | backend-rust/src/alerts/dispatcher.rs:156-170 | claims exactly an eligible row, with a token never used before |
| AlertDispatcher.Dispatcher.ProcessIntent | backend-rust/src/alerts/dispatcher.rs:255-331 | from the claim to the closing statement as a run of the machine |
| AlertDispatcher.Dispatcher.SendTarget | backend-rust/src/alerts/dispatcher.rs:344-371 | send, record and close according to the answer |
| AlertDispatcher.Dispatcher.Deliver | backend-rust/src/alerts/dispatcher.rs:344-371 | the books of sends grow by one exactly when the message left |
| AlertDispatcher.Dispatcher.QueryDue | backend-rust/src/alerts/dispatcher.rs:128-153 | the ranked query lists exactly the lowest-ranked eligible intents of a severity class, in order, each with its current row |
| AlertDispatcher.Dispatcher.InsertTargets | backend-rust/src/alerts/dispatcher.rs:219-245 | the row-by-row insert-ignore loop leaves exactly one intent per target, or the no-audience row |
| AlertDispatcher.Dispatcher.ResolveTargets | backend-rust/src/alerts/dispatcher.rs:554-604 | lists the audience once each: verified subscribers, verified administrators for critical alerts, subscribed enabled endpoints |
| AlertDispatcher.Dispatcher.SettlePermanentFailure | backend-rust/src/alerts/dispatcher.rs:508-552 | settles under the claim and inserts the follow-up alert unless the alert is itself such a follow-up |
| AlertDispatcher.Dispatcher.constructor | backend-rust/src/alerts/dispatcher.rs:110-124 | a dispatcher over any alerts and empty intent tables starts a run |
| Ranking.TakeLowest | backend-rust/src/alerts/dispatcher.rs:128-153 | repeated selection yields in order exactly the candidates of rank below n |
| DiscoveryFairness.RunKeeps | backend-rust/src/scheduler.rs:223-274 | in every run, devices disabled and re-enabled included: backlog duplicate-free and equal to `queued`, disjoint from `active`, every queued device with a deadline, backlog at most 256, active at most 2, every deadline on its device's grid and at most an interval ahead |
| DiscoveryFairness.BoundedOvertaking | backend-rust/src/scheduler.rs:223-274 | while a due device waits, any other enabled device starts at most once, even when the backlog overflows |
| DiscoveryFairness.NoStarvation | backend-rust/src/scheduler.rs:223-274 | with a fixed enabled set, a due device is among the next n starts, n being the number of enabled devices |
| DiscoveryFairness.StartFindsDeadline | backend-rust/src/scheduler.rs:252-262 | the deadline lookup in start_ready never fails and no device is started while active |
| DiscoveryFairness.DueMeansStartable | backend-rust/src/scheduler.rs:223-250 | a rescan with a free worker leaves something to start whenever a device is due |
| DiscoveryFairness.NeverEarly | backend-rust/src/scheduler.rs:233-262 | over every run, a device that is started is past its deadline and not running |
| DiscoveryFairness.RescanLeaves | backend-rust/src/scheduler.rs:223-232 | a rescan keeps known deadlines, gives new devices anchor plus stagger, forgets disabled ones, and queues those queued before and still enabled, then the admitted |
| DiscoveryFairness.AdmittedIff | backend-rust/src/scheduler.rs:233-250 | a device is admitted exactly when it is enabled, due, neither queued nor running, and fewer than 256 are queued or ahead of it by (deadline, id) |
| DiscoveryFairness.AdmittedInOrder | backend-rust/src/scheduler.rs:233-250 | the admitted are queued in that order |
| DiscoveryTables.StaggerOf | backend-rust/src/scheduler.rs:364-368 | while the product does not wrap, a stagger of s seconds belongs to exactly the ids that are 24 s modulo 301 |
| DiscoveryTables.StaggersShared | backend-rust/src/scheduler.rs:364-368 | so two devices share a stagger exactly when their ids agree modulo 301 |
| DiscoveryTables.Stagger | backend-rust/src/scheduler.rs:364-368 | the wrapped product stays within the 300 s stagger window |
| DiscoveryTables.NextSlot | backend-rust/src/scheduler.rs:264-274 | the first deadline after now on the same hourly grid, at most one interval ahead if it had to move |
| DiscoveryClass.DiscoverySchedule.Reconcile | backend-rust/src/scheduler.rs:223-250 | admits exactly the earliest due devices that fit, by (deadline, id), and reports exactly how many stay due |
| DiscoveryClass.DiscoverySchedule.GiveDeadlines | backend-rust/src/scheduler.rs:224-232 | known devices keep their deadlines, new ones get anchor plus stagger, in any iteration order |
| DiscoveryClass.DiscoverySchedule.RetainOrder | backend-rust/src/scheduler.rs:226 | the retain loop keeps exactly the enabled entries in order |
| DiscoveryClass.DiscoverySchedule.StartReady | backend-rust/src/scheduler.rs:252-262 | hands out the oldest entries, each with its own deadline, as many as there are free slots |
| DiscoveryClass.DiscoverySchedule.Complete | backend-rust/src/scheduler.rs:264-274 | frees the worker and moves the deadline to its next slot, also for a device disabled meanwhile |
| DiscoveryClass.DiscoverySchedule.Advance | backend-rust/src/scheduler.rs:269-273 | the catch-up loop ends at the first future slot of the grid |
| PollDeadlines.PollRate | backend-rust/src/scheduler.rs:710-807 | any window of width W holds at most (W - 2) / p + 2 polls, p the shortest wait in force, with late ticks, jitter and reconfigurations |
| PollDeadlines.RateIsReached | backend-rust/src/scheduler.rs:796-807 | that bound is attained |
| PollDeadlines.AtMostOncePerSecond | backend-rust/src/scheduler.rs:852-860 | the one-second floor of the jitter alone bounds polls to seconds + 2 |
| PollDeadlines.DeadlinesSpread | backend-rust/src/scheduler.rs:787-807 | each tick falls before the next deadline, and deadlines are at least p apart |
| PollDeadlines.NoDrift | backend-rust/src/scheduler.rs:796-807 | ticks that finish within their period leave the deadlines on the original grid |
| PollDeadlines.EventIs | backend-rust/src/scheduler.rs:787-860 | when a tick or a reconfiguration can happen, in base interval, jitter and floor, and the deadline each leaves |
| Retention.PruneTable | backend-rust/src/scheduler.rs:478-519 | the batch loop ends at its first failing statement or first short batch, deletes only rows expired and unprotected at their statement and loses nothing else; without a failure no eligible row is left, and undisturbed exactly the rows kept at the last statement's instant remain |
| Retention.ExactlyExpired | backend-rust/src/scheduler.rs:478-519 | undisturbed, it leaves exactly the rows not expired at the last statement or protected |
| Retention.KeptIs | backend-rust/src/scheduler.rs:441-460 | what stays: protected rows, and rows of the last max(1, configured) days |
| Retention.BatchIs | backend-rust/src/scheduler.rs:441-460 | a statement deletes a row exactly when it has to go and fewer than 1000 such rows are older |
| Retention.DeleteBatch | backend-rust/src/scheduler.rs:441-460 | one statement takes the oldest eligible rows, at most 1000 |
| AlertRetention.UndeliveredStays | backend-rust/src/scheduler.rs:486-487 | with producers, the dispatcher and pruning statements in any interleaving, an alert disappears only by a statement that at its own moment found its intents there, all settled, and the alert expired |
| AlertRetention.PruneLeaves | backend-rust/src/scheduler.rs:486-487 | with a deleted alert go exactly its intents and delivery rows, nothing else changes, and at most 1000 alerts go at once |
| AlertRetention.InterleavedKeeps | backend-rust/src/scheduler.rs:478-519 | deletions between any two statements of the dispatcher keep its whole invariant, so nothing it has in hand is ever deleted |
| AlertRetention.BooksWithRetention | backend-rust/src/alerts/dispatcher.rs:255-342 | from a fresh start with retention beside the dispatcher: at most one sent row per remaining intent, "sent" exactly with that row, attempts at most five plus the interrupted ones |
| AlertRetention.PruneIsOneBatch | backend-rust/src/scheduler.rs:441-460 | on the alerts, a pruning statement of the combined machine is one statement of the batch loop |
| RetentionLimits.HourlyLimitWithRetention | backend-rust/src/alerts/dispatcher.rs:492-506 | over every run of producers, dispatcher and retention from a fresh start in which no deletion takes an alert with a message of the last hour: no hour holds more than 20 paced messages to a target, deleted rows included |
| RetentionLimits.DedupGapWithRetention | backend-rust/src/alerts/dispatcher.rs:472-490 | likewise with the last ten minutes: a paced message follows an equal one by more than 600 s, deleted rows included |
| RetentionLimits.RateAnswerChangesIff | backend-rust/src/alerts/dispatcher.rs:492-506 | a deletion changes the answer of the rate check exactly when the limit was reached and the deleted rows inside the hour exceed the surplus |
| RetentionLimits.GapAnswerChangesIff | backend-rust/src/alerts/dispatcher.rs:472-490 | a deletion changes the answer of the de-duplication check exactly when it found something and all that it found is deleted |
| RetentionLimits.GuardIsExact | backend-rust/src/scheduler.rs:486-487 | the guard of a deletion fails exactly when the count of messages in the window changes for some target |
| RetentionWitness.LimitsFailUnguarded | backend-rust/src/scheduler.rs:486-487 | a run from a fresh start: twenty old alerts delivered, deleted at once, and a twenty-first paced message to the same target in the same second with the key of the first |
| Retention.DropIs | backend-rust/src/scheduler.rs:524-530 | an exporter goes exactly when last heard of, or created if never, more than max(1, configured) + 1 days ago; a bucket exactly with its exporter |
| Retention.CascadeTakesExpiredOnly | backend-rust/src/scheduler.rs:472-477 | dropping idle exporters never cascades away a bucket inside its window, even if the bucket prune failed |
| Retention.CascadeMargin | backend-rust/src/scheduler.rs:477 | such a bucket had expired at least a day before, unless the window is the largest u32 |
| Retention.MisdatedBucketLost | backend-rust/src/scheduler.rs:524-552 | without the dating rule a bucket inside its window can be lost |
| RetuneMeaning.EveryStopIsSafe | scripts/retune-sample-counts.py:101-172 | after any prefix of the changeover and then any prefix of the rollback, every polled rule demands at least the captured samples times cadence, and at least the captured span of samples, to fire and unless manual to recover; each cadence being the slowest interval among the devices of the rule's interfaces at that moment, and for an aggregate no faster than the rollup |
| RetuneMeaning.ChangeoverTakesEffect | scripts/retune-sample-counts.py:110-161 | a plan without blockers, sent whole, puts every candidate in force and changes no other interval; each touched polled rule gets the least counts that span what the old ones spanned, recovery only where stored and used, and every other rule keeps its counts |
| RetuneMeaning.PlansIffUnhindered | scripts/retune-sample-counts.py:60-63 | there are no blockers exactly when the system observes, automatic actions are off, and every rule a candidate touches is clear, disarmed and owns no work; with blockers nothing is emitted |
| RetuneMeaning.BlockersReported | scripts/retune-sample-counts.py:115-118 | the report names exactly what stands in the way, rule by rule |
| RetuneMeaning.CadenceIs | scripts/retune-sample-counts.py:101-102 | the cadence the planner computes is the slowest of those intervals, and of the rollup for an aggregate |
| RetunePlan.SlowestIs | scripts/retune-sample-counts.py:101-102 | the computed maximum is an upper bound and is reached |
| RetuneMeaning.StopsAreTimed | scripts/retune-sample-counts.py:101-102 | every rule has such a cadence at every stop, and it is positive |
| RetuneMeaning.FiguresAre | scripts/retune-sample-counts.py:120-128 | the printed lower bounds are the spans of the counts at their cadences, never under the duration; a flow rule recovers by its window or else its duration |
| RetuneMeaning.FleetIs | scripts/retune-sample-counts.py:31-58 | the tables that are read hold exactly the rows given |
| RetuneInput.PlannedIff | scripts/retune-sample-counts.py:31-131 | a report is made exactly of good input: positive distinct ids, intervals of at least 5 s, known devices and interfaces, strictly faster candidates, rules of known modes with distinct members and counts that fit u32, and known owned runs |
| RetuneSafety.RollbackRestores | scripts/retune-sample-counts.py:162-172 | the full rollback after any prefix of the changeover restores every count and interval exactly |
| RetuneSafety.FailsClosed | scripts/retune-sample-counts.py:60-63 | requests are emitted only when the system observes with automatic actions off, and every touched rule is clear, disarmed and owns no work |
| RetuneSafety.NoBlockersIff | scripts/retune-sample-counts.py:115-118 | there is no blocker exactly under those conditions |
| RetunePlan.ScaledIsLeast | scripts/retune-sample-counts.py:22-29 | the scaled count is the least natural number spanning the old budget |
| RetunePlan.OverflowIff | scripts/retune-sample-counts.py:27-28 | the script refuses exactly when even 2^32 - 1 samples would not span it |
| RetunePlan.FleetOf | scripts/retune-sample-counts.py:31-58 | accepted input has consistent tables and candidates strictly faster than the captured intervals, at least 5 s |
| RetuneScript.Index | scripts/retune-sample-counts.py:31-47 | both indexing loops with their first error |
| RetuneScript.RetuneRules | scripts/retune-sample-counts.py:71-159 | the rule loop: one row per rule, requests where counts change, and all blockers, or the first error |
| RetuneScript.RollBackRules | scripts/retune-sample-counts.py:163-168 | looking each request's row up again restores the old counts in reverse order |
| RetuneScript.Plan | scripts/retune-sample-counts.py:49-172 | the whole report, or the first complaint |
| Sorting.SortedFacts | scripts/retune-sample-counts.py:73 | sorting by key is ascending and keeps the multiset |
| Sorting.StableOrder | scripts/retune-sample-counts.py:73 | of two elements of one key, the one that stood first still does |
| DefinitionSafety.RuleRevision | backend-rust/src/api/rules.rs:1857-1862 | revisions never fall, and a committed change to actions, order or condition raises the revision and disarms, unless a router removal takes an action |
| DefinitionSafety.RevisionHoldsIff | backend-rust/src/api/devices.rs:762-815 | the exact exception to the revision rule |
| DefinitionSafety.TakenSilently | backend-rust/migrations/20260613000700_rule_actions.sql:18-20 | that cascade changes the actions under an unchanged revision and leaves an armed rule armed |
| DefinitionSafety.PresetRevision | backend-rust/src/api/mitigation_presets.rs:298-328 | no edit changes or archives a saved mitigation without raising its revision, and none removes it |
| DefinitionSafety.ArmedInvariant | backend-rust/src/api/rules.rs:796-843 | over every run without such a removal: an armed rule has exactly the actions, order and condition it was armed with, and every enabled action's template may run automatically |
| DefinitionSafety.ArmedStepIff | backend-rust/src/api/rules.rs:904-927 | one step keeps that invariant exactly when it takes no action from an armed rule |
| DefinitionSafety.RemovalShortensArmedRule | backend-rust/src/api/devices.rs:762-815 | a concrete armed rule left armed with one action fewer |
| DefinitionSafety.ReorderIsExact | backend-rust/src/api/rules.rs:1966-2060 | renumbering in place yields exactly the submitted order and neither loses nor changes an action |
| DefinitionSafety.SavedAsSubmitted | backend-rust/src/api/mitigation_presets.rs:211-227 | a replaced set or saved mitigation is listed exactly as submitted, in order |
| DefinitionSafety.IncidentFreezes | backend-rust/src/api/rules.rs:848-858 | while a rule fires or awaits its rollback no editor can delete, disable or change it or end the incident |
| DefinitionSafety.EditWellFormed | backend-rust/src/api/rules.rs:1577-2060 | ids are never reused, action ids stay distinct, and every action's template stays in the catalogue and its router enrolled |
| DefinitionMeaning.DoneIff | backend-rust/src/api/rules.rs:1824-1950 | every edit goes through exactly under its conditions on the rows: the rule in its normal state, without unfinished work and at the submitted revision, usable drafts, the imported saved mitigation as seen, and so on edit by edit; a refused one changes nothing |
| DefinitionMeaning.OneReplacementPerRevision | backend-rust/src/api/rules.rs:1838-1841 | over any run of edits, of two replacements of one rule submitted with the same revision at most one goes through |
| DefinitionMeaning.OneSavePerRevision | backend-rust/src/api/mitigation_presets.rs:298-425 | likewise for rewriting and archiving one saved mitigation |
| DefinitionMeaning.OverwritesOnlyWhatWasSeen | backend-rust/src/api/rules.rs:1838-1841 | no lost update: a replacement goes through only over the actions and condition its editor loaded, whatever was edited in between, unless a dropped router took an action |
| DefinitionMeaning.RewritesOnlyWhatWasSeen | backend-rust/src/api/mitigation_presets.rs:298-425 | and an edit of a saved mitigation only over the row that was loaded |
| DefinitionMeaning.SettingsStand | backend-rust/src/api/rules.rs:695-1037 | over any run of edits a rule has the condition, enabling and manual-run permission last submitted by an update that went through |
| DefinitionMeaning.CreateLeaves | backend-rust/src/api/rules.rs:480-690 | a new rule gets an unused id, the submitted fields, no action and revision 1 |
| DefinitionMeaning.UpdateLeaves | backend-rust/src/api/rules.rs:695-1037 | every submitted field is stored and no other changes; a submitted condition raises the revision, disarms and clears |
| DefinitionMeaning.AddLeaves | backend-rust/src/api/rules.rs:1577-1742 | the row is appended with the submitted template, router, parameters and position, enabled, under a new id; the rule is disarmed at its next revision |
| DefinitionMeaning.DetachLeaves | backend-rust/src/api/rules.rs:1745-1800 | exactly the named action goes, all others stay in their order; the rule is disarmed at its next revision |
| DefinitionMeaning.ReplaceLeaves | backend-rust/src/api/rules.rs:1866-1950 | the rows are the drafts in their order under new ids; the rule is disarmed at its next revision |
| DefinitionMeaning.ReorderLeaves | backend-rust/src/api/rules.rs:1966-2060 | only positions change, each to its place in the submitted list |
| DefinitionMeaning.MarksLeave | backend-rust/src/reroute/inventory_audit.rs:343-530 | drift marks one action and disarms, its end removes the mark and does not arm, and the engine moves only the rule's state |
| DefinitionMeaning.PresetLeaves | backend-rust/src/api/mitigation_presets.rs:246-425 | a saved mitigation gets its next revision with the submitted rows, or archived with its rows unchanged |
| DefinitionMeaning.DropLeaves | backend-rust/src/api/devices.rs:762-815 | a dropped router takes its rules along, and from every other rule exactly the actions on it, the rest in their order |
| DefinitionEditors.Tables.Update | backend-rust/src/api/rules.rs:695-1037 | the update handler: arming checks, refusal while firing, and a changed condition winning over a request to arm |
| DefinitionEditors.Tables.Add | backend-rust/src/api/rules.rs:1577-1742 | attaches one action under the edit lock and disarms |
| DefinitionEditors.Tables.Detach | backend-rust/src/api/rules.rs:1745-1800 | detaches exactly that action, or rolls back everything |
| DefinitionEditors.Tables.Replace | backend-rust/src/api/rules.rs:1866-1950 | rewrites the ordered set under the submitted revision and a current preset, or changes nothing |
| DefinitionEditors.Tables.Reorder | backend-rust/src/api/rules.rs:1966-2060 | refuses any list that is not exactly the rule's actions, else renumbers them one by one |
| DefinitionEditors.Tables.Save | backend-rust/src/api/mitigation_presets.rs:246-370 | creates or rewrites a saved mitigation at the submitted revision |
| DefinitionEditors.Tables.Archive | backend-rust/src/api/mitigation_presets.rs:391-425 | archives exactly the revision the caller saw |
| DefinitionEditors.Tables.LockEdit | backend-rust/src/api/rules.rs:1824-1855 | the refusals of an action edit, in order |
| AdmissionCurrent.RunStartsOnCurrentRows | backend-rust/src/api/manual_mitigations.rs:1657-1800 | from a fresh start, through any interleaving whatever, a confirmation that admits a run has a source that allows it at that moment (the rule there, manual runs allowed, recorded revision current; or the saved mitigation there, not archived, at its revision) and runs exactly its rows, order and condition, all on enrolled routers, with its ledger written |
| AdmissionCurrent.StartIsCurrentIff | backend-rust/src/api/manual_mitigations.rs:696-720 | a run that is started, confirmed or direct, has a source that allows it at that moment, and carries its current rows if and only if every router that was read is still enrolled |
| AdmissionCurrent.PreparedOnCurrentRows | backend-rust/src/api/manual_mitigations.rs:843-895 | over every run of the site, a direct run past its second check, so every prepared one, passed that check when its source allowed the run and what it runs was exactly the current rows on enrolled routers |
| AdmissionCurrent.LedgerRoutersStay | backend-rust/migrations/20260917000200_execution_safety.sql:67-68 | over every run of the site, the routers of every written ledger and of every prepared run are enrolled |
| AdmissionCurrent.GoneNeverPrepared | backend-rust/src/reroute/bundle.rs:121-262 | a run on a router that is gone never gets its ledger and is never prepared in any continuation |
| AdmissionCurrent.GoneNeverAdmitted | backend-rust/src/reroute/bundle.rs:121-262 | a plan that would run on a router that is gone is never admitted, whenever and however it is confirmed |
| AdmissionCurrent.EditTracks | backend-rust/src/api/rules.rs:1436-1522 | every edit, router removals included, keeps for every request in flight: while its revision is current, the rule lists what was read minus the actions whose router is gone, and a saved mitigation exactly what was read |
| AdmissionRows.ListedOff | backend-rust/src/api/rules.rs:1476 | listing the enabled actions in order and losing a router commute |
| AdmissionCurrent.RemovalPassesRevisionCheck | backend-rust/src/api/manual_mitigations.rs:1686-1698 | after a router removal what was read still passes the revision check; it is current exactly when no enabled action was on that router |
| AdmissionCurrent.RemovalRefusesConfirmation | backend-rust/src/api/manual_mitigations.rs:1686-1831 | confirmed after such a removal, the plan is used up and its run created without a ledger and refused, or left planned if the process dies first |
| AdmissionCurrent.StaleDirectRun | backend-rust/src/api/manual_mitigations.rs:696-782 | the exception: a direct request that read the rule before the removal publishes a run of rows that are gone, which no continuation prepares |
| AdmissionExample.StaleDirectExample | backend-rust/src/api/manual_mitigations.rs:696-782 | from a fresh site: a rule with two actions is read, the router of the first is deleted, and the direct run of both is published and never prepared |
| AdmissionExample.RefusedConfirmationExample | backend-rust/src/api/manual_mitigations.rs:1686-1831 | from a fresh site: the same with a stored plan, whose confirmation is used up and refused |
| AdmissionSafety.AtMostOnce | backend-rust/src/api/manual_mitigations.rs:1574-1603 | over every run: a plan is consumed exactly when bound, all its answers name that run, at most one starts it; a user and request id start at most one forward run; each run is claimed at most once |
| AdmissionSafety.ReplaysReturnTheRun | backend-rust/src/api/manual_mitigations.rs:1588-1603 | every later confirmation returns the same run and starts nothing, past expiry and revision changes |
| AdmissionSafety.PreviewAuthority | backend-rust/src/api/manual_mitigations.rs:1580-1640 | a plan starts a run only for its own user, token and scope, and less than five minutes after it was stored |
| AdmissionSafety.DirectStartsAlone | backend-rust/src/api/manual_mitigations.rs:720-741 | a direct request starts a run only while its source has none unfinished and its id is new |
| AdmissionSafety.PlansBoundKept | backend-rust/src/api/manual_mitigations.rs:1737-1778 | every step keeps plans and runs bound one to one |
| AdmissionSafety.RequestsUniqueKept | backend-rust/src/api/manual_mitigations.rs:675-687 | every step keeps forward runs of a user distinct in their request ids |
| AdmissionSafety.ReplayNamesRun | backend-rust/src/api/manual_mitigations.rs:675-687 | a repeated request starts nothing and names its forward run exactly when no later recovery carries the same id |
| AdmissionSafety.RecoveryAnswersForRun | backend-rust/src/api/manual_mitigations.rs:675-687 | from any fresh start, a run and then a recovery under one request id: repeating the request is answered with the recovery |
| AdmissionSafety.ClaimsUniqueKept | backend-rust/src/api/manual_mitigations.rs:828-837 | at most one worker wins the claim of a run |
| AdmissionMeaning.AcceptIs | backend-rust/src/api/manual_mitigations.rs:1564-1837 | a confirmation with the plan's credentials repeats its answer once the plan is used, starts its run exactly while it is unexpired and its source may be run by hand, and is declined otherwise; with every field it leaves |
| AdmissionMeaning.DirectIs | backend-rust/src/api/manual_mitigations.rs:662-782 | a direct request is answered with the newest run of its id, then the newest unfinished run of its source, and starts a new one exactly when its source may be run by hand |
| AdmissionMeaning.RecheckIs | backend-rust/src/api/manual_mitigations.rs:846-884 | the second check passes exactly while the source may be run by hand and every router is enrolled; else the run is settled |
| AdmissionMeaning.LedgerIs | backend-rust/src/api/manual_mitigations.rs:887 | a checked run gets its ledger exactly when it has something to run on enrolled routers, and a stored run is prepared while it is planned |
| AdmissionMeaning.PreviewBegins | backend-rust/src/api/manual_mitigations.rs:555-578 | a preview begins exactly where the rule allows manual runs or the saved mitigation is as the caller saw it, and notes the revision of that moment |
| AdmissionMeaning.SettledForGood | backend-rust/src/api/manual_mitigations.rs:846-895 | over any run: a run settled before it was prepared is never planned again and never prepared |
| AdmissionMeaning.StoreIs | backend-rust/src/api/manual_mitigations.rs:1331-1334 | a plan is stored exactly for what can be run, for its user and 300 s |
| AdmissionMeaning.ReadIs | backend-rust/src/api/manual_mitigations.rs:579-585 | the second read takes the source's rows, and refuses a body that differs in anything but routers, parameters and positions |
| AdmissionMeaning.ListedIs | backend-rust/src/api/rules.rs:1476 | a rule is run with exactly its enabled actions, each once, by position and then in row order |
| AdmissionMeaning.EditIs | backend-rust/migrations/20260917000200_execution_safety.sql:67-68 | a router with a ledger row cannot be deleted; every other edit applies |
| AdmissionDesk.Desk.Accept | backend-rust/src/api/manual_mitigations.rs:1564-1837 | confirmation as its statements: consumed before expired, the commit, then the ledger, which fails on a router that is gone, and the run's fate |
| AdmissionDesk.Desk.InsertLedger | backend-rust/src/reroute/bundle.rs:121-262 | succeeds exactly when there is something to run and every router is enrolled, and then marks the run's ledger written |
| AdmissionDesk.Desk.Direct | backend-rust/src/api/manual_mitigations.rs:662-782 | direct admission: repeated id, changed source, unfinished run of the source, new run |
| AdmissionDesk.Desk.Claim | backend-rust/src/api/manual_mitigations.rs:828-837 | the guarded update wins exactly when it changes the row |
| AdmissionDesk.Desk.Recheck | backend-rust/src/api/manual_mitigations.rs:846-884 | the second check: source current and every router enrolled, or the run is settled |
| AdmissionDesk.Desk.Persist | backend-rust/src/api/manual_mitigations.rs:887 | the ledger of a checked run, or the run is settled |
| SnapshotDiff.CompareSnapshots | scripts/prepare-hardening-release.py:102-139 | accepts exactly when both captures are stopped and readable, all differences are of permitted kinds and all are predicted; the report lists each difference once |
| SnapshotDiff.ReportedWerePredicted | scripts/prepare-hardening-release.py:106-138 | everything reported was predicted word for word, every difference is reported, and no protected field is among them |
| SnapshotDiff.ReportSuffices | scripts/prepare-hardening-release.py:102-139 | the reported list is itself a sufficient prediction |
| SnapshotDiff.ReportIsLeast | scripts/prepare-hardening-release.py:102-139 | a prediction is accepted exactly when it contains the whole list, so every proper subset is refused |
| SnapshotDiff.AcceptableIff | scripts/prepare-hardening-release.py:104 | some prediction is accepted exactly when all differences are permitted and no identity holds a dot |
| SnapshotMeaning.AcceptableExactly | scripts/prepare-hardening-release.py:81-138 | some prediction is accepted exactly when both captures are at rest and well keyed, rows came or went only in the four repaired sections, no evidence field changed and of a delivery row only its link and error, and no changed row has a dot in its identity; stated by field names and states |
| SnapshotDiff.DottedIdentityNeverAccepted | scripts/prepare-hardening-release.py:104 | for every identity with a dot, two comparable captures whose one difference is permitted and which no prediction makes acceptable |
| SnapshotDiff.PredictionNames | scripts/prepare-hardening-release.py:104 | splitting a prediction names a marker exactly when it is its text and section and identity hold no dot |
| SnapshotDiff.IndexLosesNothing | scripts/prepare-hardening-release.py:81-92 | indexing a section keeps every row under its identity and invents none |
| SnapshotDiff.Rows | scripts/prepare-hardening-release.py:81-92 | the indexing loop, refusing missing and repeated identities |
| Redaction.NoUrlSurvives | backend-rust/src/alerts/mod.rs:47-65 | the output holds neither scheme, not even across splice points |
| Redaction.Idempotent | backend-rust/src/alerts/mod.rs:47-65 | redacting twice changes nothing more |
| Redaction.UnchangedIff | backend-rust/src/alerts/mod.rs:47-65 | text is changed exactly when it held a URL |
| Redaction.OnlyUrlsReplaced | backend-rust/src/alerts/mod.rs:47-65 | cut at its URLs, the text keeps everything else in order with one marker per URL |
| Redaction.CutIsUnique | backend-rust/src/alerts/mod.rs:47-65 | there is only one such cut, so it determines the output |
| Redaction.EndsAre | backend-rust/src/alerts/mod.rs:58-61 | a URL ends at exactly the 25 white-space code points and five brackets and quotes |
| Redaction.FirstMatch | backend-rust/src/alerts/mod.rs:50-54 | the earlier of the two schemes' first occurrences, none exactly when the text is clean |
| Redaction.RedactUrls | backend-rust/src/alerts/mod.rs:47-65 | the loop, terminating |
| AuthenticationLimits.GuessesBounded | backend-rust/src/auth/mod.rs:421-440 | with at most c guesses in flight and no reset, any span evaluates at most threshold - 1 + c times the lock windows that fit |
| AuthenticationLimits.SequentialGuesses | backend-rust/src/auth/mod.rs:130-163 | one request at a time: at most threshold + span / window wrong guesses |
| AuthenticationLimits.BoundReached | backend-rust/src/auth/mod.rs:753-787 | the bound is met exactly, for every c and every number of windows |
| AuthenticationLimits.SlotsIs | backend-rust/src/auth/mod.rs:775-777 | the lock windows that fit are one plus the rounded-down quotient |
| Authentication.StepsIncrease | backend-rust/src/auth/mod.rs:905-936 | between resets accepted TOTP steps strictly increase in whatever order requests reach the row (section 5.2 of RFC 6238) |
| Authentication.AcceptedIffNew | backend-rust/src/auth/mod.rs:921-935 | in any sequence the k-th step is accepted exactly when it matched and is later than the one stored at first and every one matched before; it is then stored, and a refused request changes nothing |
| Authentication.LockedIffReached | backend-rust/src/auth/mod.rs:753-787 | after any failures in a row the count is their number, up to the largest u32, and the account is locked exactly when it reached the threshold, for the configured minutes and at least one |
| Authentication.RecoveriesBounded | backend-rust/src/auth/mod.rs:852-892 | n stored codes allow at most n recoveries |
| Authentication.OneCodeBounded | backend-rust/src/auth/mod.rs:852-892 | one code succeeds no more often than stored hashes match it |
| Authentication.SpendRemovesOne | backend-rust/src/auth/mod.rs:870-890 | a recovery succeeds exactly when some hash matches and removes exactly one matching hash |
| Authentication.UserRow.BumpFailureAndMaybeLock | backend-rust/src/auth/mod.rs:753-787 | saturating count, lock from the threshold on, stale lock cleared below it, and the edge that raises the alert |
| Authentication.UserRow.ConsumeTotpStep | backend-rust/src/auth/mod.rs:905-936 | accepts only a step after the last |
| Authentication.UserRow.ConsumeRecoveryCode | backend-rust/src/auth/mod.rs:852-892 | the search loop and removal of the first matching hash |
| Superadmins.NeverOwnerless | backend-rust/src/api/users.rs:353-440 | under any interleaving of demotions, deletions, lost connections and new accounts, a superadmin always remains |
| Superadmins.GuardKept | backend-rust/src/api/users.rs:457-504 | every statement keeps: only the lock holder is past asking, and a cleared demotion leaves someone |
| Superadmins.RefusedIffLast | backend-rust/src/api/users.rs:328-347 | a request is refused as the last superadmin's exactly when carrying it out would leave none |
| Superadmins.ServedIs | backend-rust/src/api/users.rs:353-440 | which answer each request gets, by the rows; one carried out stores the submitted name and role, changes no other user, and a deletion removes exactly that user |
| Superadmins.AnsweredAtOnce | backend-rust/src/api/users.rs:353-504 | checked in separate statements among other writers, every request is answered as if carried out at one moment |
| Superadmins.TwoClearedLeaveNone | backend-rust/src/api/users.rs:350-352 | two requests that both passed the count would leave none: the lock is needed |
| Superadmins.UserTables.IsOnlySuperadmin | backend-rust/src/api/users.rs:328-347 | the two-query test holds exactly for a sole superadmin |
| Superadmins.UserTables.UpdateUserLocked | backend-rust/src/api/users.rs:380-440 | name and role update, rolled back whole when the role does not exist |
| Superadmins.UserTables.DeleteUserLocked | backend-rust/src/api/users.rs:478-504 | deletion with its roles, or nothing |

## Left out

- Alert dispatcher: deletion of recipients and endpoints during a run, which sets the target of their intents to null and deletes their delivery rows (`backend-rust/migrations/20260612000600_alerts.sql:68`, `backend-rust/migrations/20260623000300_teams_notifications.sql:39`), the sent rows that the recovery check and both windows read among them; bodies, encryption and addresses; the texts of last_error; a send that fails after the message left counts as not sent; counters are unbounded where the table has u32; runs start on empty intent tables.
- AlertLimits.HourlyLimit: no rows are deleted during the run; RetentionLimits.HourlyLimitWithRetention is the theorem with retention.
- AlertLimits.DedupGap: no rows are deleted during the run; RetentionLimits.DedupGapWithRetention is the theorem with retention.
- RetentionLimits.HourlyLimitWithRetention: the guard on deletions is sufficient for the whole run and exact for the counts behind one check; a run that breaks it may still keep the limits.
- AlertFairness, AlertQueue, AlertDrain: runs without retention, which leaves alerts that are not delivered alone.
- AlertDrain.Drains: rate-limited and mailer-less retries are excluded, because each of them may recur for ever without spending an attempt; so are interruptions and new alerts. The passes it counts are those that complete at least the retry backoff after the previous one counted.
- AlertDispatcher.Dispatcher.DrainOnce: the five-second poll loop around it and the restart of a panicked dispatcher are not modelled.
- DiscoveryFairness.NoStarvation: needs the enabled set fixed, because a device disabled and enabled again restarts at its grid.
- Discovery loop: select, logging and capacity reports, and the discovery read itself.
- PollDeadlines.PollRate: the jittered period is any whole number of milliseconds in the range jittered allows; floating-point rounding is not modelled. The initial spread, the SSH probes and the interface discovery of the loop are left out.
- Retention: session, preview and cooldown housekeeping, and the protection of rule events by unfinished mitigations, which enters only as the abstract exemption of a row.
- RetuneScript.Plan: JSON type checks, missing keys, captured_at, the thresholds (copied, never used) and the database capture; blockers are a set, not a sorted list.
- RetuneMeaning.EveryStopIsSafe: flow rules, which keep their counts because they are not polled, and recovery of rules whose recovery is manual.
- DefinitionEditors.Tables.Update: validation of metrics, operators and flow selectors; all condition fields are one value.
- DefinitionEditors.Tables.Add: parameter canonicalisation and automatic targets.
- DefinitionEditors.Tables.Replace: phase order, parameters and inventory containment of the drafts.
- Definitions: the template catalogue is fixed, as no handler changes it; the member interfaces of aggregate rules, which a router removal also shrinks; removal of interfaces; the policy fence and row locks are modelled by making each handler one step.
- AdmissionDesk.Desk.Accept: of what may refuse the ledger only the missing router and the empty list are derived from the tables; disabled templates, phase order, prepared snapshots and admit_bundle are the free choice between admitting and refusing. Integrity hash, timers, verification modes, cooldowns and recovery claims are one abstract verdict; rule-clear, rollback and bundle-revert scopes.
- AdmissionCurrent.RunStartsOnCurrentRows: the validation of a submitted body against the catalogue is not modelled, so the model lets more requests proceed than the code; what automatic targets resolve to is not part of a row. The reads of one request are two steps, its revision first.
- Admission of recoveries by source, preparation of router commands and execution of runs; the executor's own checks.
- SnapshotDiff.CompareSnapshots: values are compared by kind and text, so numbers that are equal across JSON kinds count as different; the order of printed repairs, the message of the first refusal, the lock count, and the packaging of the release.
- Authentication: password, TOTP and hash verification are parameters; sessions, the per-address throttle, enrolment, and failures of the database while recording an attempt.
- Superadmins: audit rows, and failures of the release statement.
- Router mutation, recovery ownership, detection, telemetry, SSH and SNMP; front end and listing endpoints; configuration parsing.
