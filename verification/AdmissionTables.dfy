/**
 Previews, execution plans and runs of backend-rust/src/api/manual_mitigations.rs (and the rule preview of
 rules.rs): what each request statement or transaction does. A preview reads the revision and the actions in
 separate statements; confirmation is one transaction under the policy fence.
 */
module AdmissionTables {
  import opened Options
  import opened DefinitionTables

  const PREVIEW_SECONDS := 300

  /** What a run is authorised against. `condition` carries the flow selector read with the rule's revision. */
  datatype Source =
    | FromRule(rule: nat, revision: nat, condition: int)
    | FromPreset(preset: nat, presetRevision: nat)
    | RunOnce

  datatype Scope = RuleApply(rule: nat) | ManualMitigation(preset: Option<nat>)

  /**
   A request between its first read and its last write. `body` is the action list it submits: the actions of a
   run-once, the overrides of a saved mitigation, nothing for a rule.
   */
  datatype Reading = Reading(user: nat, source: Source, body: seq<Action>, read: Option<seq<Action>>)

  datatype Plan = Plan(
    user: nat, token: nat, source: Source, body: seq<Action>, read: seq<Action>, expires: int, consumed: bool,
    bundle: Option<nat>
  )

  /** `Checked` and `Stored` name the moments between the second revision check, the ledger and the phase update. */
  datatype Phase = NoPhase | Published | Preparing | Checked | Stored | Prepared

  /**
   One reroute_bundles row. A recovery has a parent; `busy` is any unfinished mutation or lifecycle state; `ledger`
   says whether its reroute_bundle_actions rows are written.
   */
  datatype Bundle = Bundle(
    user: nat, request: Option<nat>, recovery: bool, source: Source, body: seq<Action>, read: seq<Action>,
    plan: Option<nat>, planned: bool, phase: Phase, busy: bool, ledger: bool
  )

  datatype Answer =
    | PlanAnswer(plan: nat, bundle: nat, already: bool)
    | DirectAnswer(user: nat, request: nat, bundle: nat, already: bool)

  /** Rows are indexed by id: all three tables count their ids up. */
  datatype Site = Site(
    d: Definitions,
    readings: seq<Reading>,
    plans: seq<Plan>,
    bundles: seq<Bundle>,
    clock: int,
    answers: seq<Answer>,
    wins: multiset<nat>
  )

  function ScopeOf(source: Source): Scope {
    match source
    case FromRule(rule, _, _) => RuleApply(rule)
    case FromPreset(preset, _) => ManualMitigation(Some(preset))
    case RunOnce => ManualMitigation(None)
  }

  /** The recorded revision is still the current one, and the source still allows a manual run. */
  predicate SourceCurrent(d: Definitions, source: Source) {
    match source
    case FromRule(rule, revision, _) => rule in d.rules && d.rules[rule].manualApply && d.rules[rule].revision == revision
    case FromPreset(preset, revision) => PresetCurrent(d, preset, Some(revision))
    case RunOnce => true
  }

  /** What a run of this source executes, in order: the rule's rows, or the enabled actions of the request. */
  function Runs(source: Source, body: seq<Action>, read: seq<Action>): seq<Action> {
    if source.FromRule? then read else EnabledOnly(body)
  }

  /** validate_overrides: a run may change the routers and parameters of a saved mitigation, nothing else. */
  predicate Overrides(saved: seq<Action>, body: seq<Action>) {
    && |saved| == |body|
    && forall k | 0 <= k < |saved| ::
         && saved[k].id == body[k].id && saved[k].template == body[k].template
         && saved[k].enabled == body[k].enabled && saved[k].autoTarget == body[k].autoTarget
  }

  predicate Enrolled(d: Definitions, actions: seq<Action>) {
    forall a | a in actions :: a.device in d.devices
  }

  /**
   persist_actions writes one ledger row per action in one transaction; the foreign key to the router (RESTRICT) fails
   it when a router is gone.
   */
  predicate Persistable(d: Definitions, runs: seq<Action>) {
    runs != [] && Enrolled(d, runs)
  }

  /** Some ledger row is on the router. */
  predicate LedgerUses(bundles: seq<Bundle>, router: nat) {
    exists b | b in bundles :: b.ledger && exists a | a in Runs(b.source, b.body, b.read) :: a.device == router
  }

  /** The ledger's foreign key also refuses the deletion of a router it uses. */
  function EditSite(s: Site, edit: Edit): Site {
    if edit.DropDevice? && LedgerUses(s.bundles, edit.router) then s else s.(d := Apply(s.d, edit).d)
  }

  // ---- preview ----

  /** The first read of POST /api/rules/{id}/apply. */
  function BeginRule(s: Site, user: nat, rule: nat): Site {
    if rule !in s.d.rules || !s.d.rules[rule].manualApply then s
    else
      var r := s.d.rules[rule];
      s.(readings := s.readings + [Reading(user, FromRule(rule, r.revision, r.condition), [], None)])
  }

  /** The first read of resolve_manual_request, for a saved mitigation at the revision the client saw. */
  function BeginPreset(s: Site, user: nat, preset: nat, revision: Option<nat>, body: seq<Action>): Site {
    if !PresetCurrent(s.d, preset, revision) then s
    else s.(readings := s.readings + [Reading(user, FromPreset(preset, revision.value), body, None)])
  }

  function BeginRunOnce(s: Site, user: nat, body: seq<Action>): Site {
    s.(readings := s.readings + [Reading(user, RunOnce, body, None)])
  }

  function CurrentActions(d: Definitions, source: Source): seq<Action> {
    match source
    case FromRule(rule, _, _) => if rule in d.rules then Listed(d.rules[rule].actions) else []
    case FromPreset(preset, _) => if preset in d.presets then ListedAll(d.presets[preset].actions) else []
    case RunOnce => []
  }

  /** The second read: the actions as they are by then; overrides of anything but routers and parameters are refused. */
  function ReadActions(s: Site, reading: nat): Site {
    if reading >= |s.readings| then s
    else
      var r := s.readings[reading];
      var rows := CurrentActions(s.d, r.source);
      if r.source.FromPreset? && !Overrides(rows, r.body) then s
      else s.(readings := s.readings[reading := r.(read := Some(rows))])
  }

  /**
   Under the policy fence: something to run and every router enrolled (transport_identities), then INSERT INTO
   execution_plans, valid for five minutes.
   */
  function StorePlan(s: Site, reading: nat, token: nat): Site {
    if reading >= |s.readings| || s.readings[reading].read.None? then s
    else
      var r := s.readings[reading];
      if !Persistable(s.d, Runs(r.source, r.body, r.read.value)) then s
      else
        s.(plans := s.plans
             + [Plan(r.user, token, r.source, r.body, r.read.value, s.clock + PREVIEW_SECONDS, false, None)])
  }

  // ---- confirmation of a preview ----

  /**
   What follows the commit, as far as the tables leave it open: the ledger goes in and the run is admitted; the
   ledger or admit_bundle refuses it; or the process dies before or after writing the ledger.
   */
  datatype Aftermath = Admits | Refuses(written: bool) | Dies(written: bool)

  datatype Outcome = Admitted(bundle: nat) | Replayed(bundle: nat) | NotAdmitted(bundle: nat) | Unanswered(bundle: nat) | Declined

  datatype Confirmed = Confirmed(s: Site, outcome: Outcome)

  function NewBundle(p: Plan, plan: nat): Bundle {
    Bundle(p.user, None, false, p.source, p.body, p.read, Some(plan), true, NoPhase, false, false)
  }

  function SetBundle(s: Site, id: nat, b: Bundle): Site
    requires id < |s.bundles|
  {
    s.(bundles := s.bundles[id := b])
  }

  /** The ledger of a confirmed plan is there exactly when it was reached and every router is still enrolled. */
  predicate Written(d: Definitions, p: Plan, aftermath: Aftermath) {
    (aftermath.Admits? || aftermath.written) && Persistable(d, Runs(p.source, p.body, p.read))
  }

  /** Whatever would follow, a ledger that cannot be written refuses the run. */
  predicate TurnedDown(d: Definitions, p: Plan, aftermath: Aftermath) {
    aftermath.Refuses? || (aftermath.Admits? && !Written(d, p, aftermath))
  }

  /**
   accept_plan_inner, the policy fence held throughout: the consumed check comes before the expiry check, and the
   ledger is written after the commit. `valid` stands for the checks on the snapshot itself and on cooldowns.
   */
  function AcceptPlan(s: Site, plan: nat, user: nat, token: nat, scope: Scope, valid: bool, aftermath: Aftermath): Confirmed {
    if plan >= |s.plans| then Confirmed(s, Declined)
    else
      var p := s.plans[plan];
      if p.user != user || p.token != token || ScopeOf(p.source) != scope then Confirmed(s, Declined)
      else if p.consumed then
        if p.bundle.None? then Confirmed(s, Declined)
        else
          Confirmed(
            s.(answers := s.answers + [PlanAnswer(plan, p.bundle.value, true)]),
            Replayed(p.bundle.value))
      else if p.expires <= s.clock || !SourceCurrent(s.d, p.source) || !valid then Confirmed(s, Declined)
      else
        var id := |s.bundles|;
        var refused := TurnedDown(s.d, p, aftermath);
        var bound := s.(
          bundles := s.bundles + [NewBundle(p, plan).(planned := !refused, ledger := Written(s.d, p, aftermath))],
          plans := s.plans[plan := p.(consumed := true, bundle := Some(id))]
        );
        if refused then Confirmed(bound, NotAdmitted(id))
        else if aftermath.Dies? then Confirmed(bound, Unanswered(id))
        else Confirmed(bound.(answers := s.answers + [PlanAnswer(plan, id, false)]), Admitted(id))
  }

  // ---- direct runs ----

  predicate SameRequest(b: Bundle, user: nat, request: nat) {
    b.user == user && b.request == Some(request)
  }

  /** ORDER BY id DESC LIMIT 1 over the rows carrying this operator request. */
  function NewestRequest(bundles: seq<Bundle>, user: nat, request: nat): (r: Option<nat>)
    ensures r.Some? ==> r.value < |bundles| && SameRequest(bundles[r.value], user, request)
    ensures r.Some? ==> forall k | r.value < k < |bundles| :: !SameRequest(bundles[k], user, request)
    ensures r.None? ==> forall k | 0 <= k < |bundles| :: !SameRequest(bundles[k], user, request)
  {
    if bundles == [] then None
    else if SameRequest(bundles[|bundles| - 1], user, request) then Some(|bundles| - 1)
    else NewestRequest(bundles[..|bundles| - 1], user, request)
  }

  predicate Occupies(b: Bundle, source: Source) {
    && !b.recovery && (b.planned || b.busy)
    && ((source.FromRule? && b.source.FromRule? && b.source.rule == source.rule)
        || (source.FromPreset? && b.source.FromPreset? && b.source.preset == source.preset))
  }

  /** The newest unfinished run of the same rule or saved mitigation. */
  function NewestActive(bundles: seq<Bundle>, source: Source): (r: Option<nat>)
    ensures r.Some? ==> r.value < |bundles| && Occupies(bundles[r.value], source)
    ensures r.None? ==> forall k | 0 <= k < |bundles| :: !Occupies(bundles[k], source)
  {
    if bundles == [] then None
    else if Occupies(bundles[|bundles| - 1], source) then Some(|bundles| - 1)
    else NewestActive(bundles[..|bundles| - 1], source)
  }

  function DirectBundle(r: Reading, request: nat): Bundle
    requires r.read.Some?
  {
    Bundle(r.user, Some(request), false, r.source, r.body, r.read.value, None, true, Published, false, false)
  }

  /**
   run_direct_actions and admit_direct_apply: a request id seen before, or a source with an unfinished run, is
   answered with that run. No router is looked at yet.
   */
  function AdmitDirect(s: Site, reading: nat, request: nat, cooled: bool): Confirmed {
    if reading >= |s.readings| || s.readings[reading].read.None? then Confirmed(s, Declined)
    else if Runs(s.readings[reading].source, s.readings[reading].body, s.readings[reading].read.value) == [] then
      Confirmed(s, Declined)
    else
      var r := s.readings[reading];
      var duplicate := NewestRequest(s.bundles, r.user, request);
      if duplicate.Some? then
        Confirmed(
          s.(answers := s.answers + [DirectAnswer(r.user, request, duplicate.value, true)]),
          Replayed(duplicate.value))
      else if !SourceCurrent(s.d, r.source) then Confirmed(s, Declined)
      else
        var active := NewestActive(s.bundles, r.source);
        if active.Some? then
          Confirmed(
            s.(answers := s.answers + [DirectAnswer(r.user, request, active.value, true)]),
            Replayed(active.value))
        else if !cooled then Confirmed(s, Declined)
        else
          Confirmed(
            s.(bundles := s.bundles + [DirectBundle(r, request)],
               answers := s.answers + [DirectAnswer(r.user, request, |s.bundles|, false)]),
            Admitted(|s.bundles|))
  }

  /** admit_direct_recovery publishes a child run, here of `inverse`, that carries the operator's request id too. */
  function AdmitRecovery(s: Site, user: nat, request: nat, inverse: seq<Action>): Site {
    s.(bundles := s.bundles + [Bundle(user, Some(request), true, RunOnce, inverse, [], None, true, Published, false, false)])
  }

  /** The worker's claim: published to preparing, once. */
  function ClaimBundle(s: Site, bundle: nat): Site {
    if bundle >= |s.bundles| || !s.bundles[bundle].planned || s.bundles[bundle].phase != Published then s
    else SetBundle(s, bundle, s.bundles[bundle].(phase := Preparing)).(wins := s.wins + multiset{bundle})
  }

  /**
   After the router reads, the source revision and the routers (transport_identities) are checked again under the
   fence, which is then released.
   */
  function Rechecked(d: Definitions, b: Bundle): Bundle {
    if !b.planned || b.phase != Preparing then b
    else if SourceCurrent(d, b.source) && Enrolled(d, Runs(b.source, b.body, b.read)) then b.(phase := Checked)
    else b.(planned := false)
  }

  /** persist_actions of a direct run; a failure settles the run. */
  function Persisted(d: Definitions, b: Bundle): Bundle {
    if b.phase != Checked then b
    else if Persistable(d, Runs(b.source, b.body, b.read)) then b.(phase := Stored, ledger := true)
    else b.(planned := false)
  }

  /** UPDATE ... SET phase = 'prepared' WHERE id = ? AND state = 'planned'. */
  function Finished(b: Bundle): Bundle {
    if b.planned && b.phase == Stored then b.(phase := Prepared) else b
  }

  /** The executor moves a run on; a run never becomes planned again. */
  function Progressed(b: Bundle, planned: bool, busy: bool): Bundle {
    b.(planned := planned && b.planned, busy := busy)
  }

  // ---- all of them ----

  datatype Event =
    | Edits(edit: Edit)
    | Clock(now: int)
    | PreviewRule(user: nat, rule: nat)
    | PreviewPreset(user: nat, preset: nat, expected: Option<nat>, body: seq<Action>)
    | PreviewRunOnce(user: nat, body: seq<Action>)
    | Read(reading: nat)
    | Store(reading: nat, token: nat)
    | Accept(plan: nat, user: nat, token: nat, scope: Scope, valid: bool, aftermath: Aftermath)
    | Direct(reading: nat, request: nat, cooled: bool)
    | Recovery(user: nat, request: nat, inverse: seq<Action>)
    | Claim(bundle: nat)
    | Recheck(bundle: nat)
    | Persist(bundle: nat)
    | Finish(bundle: nat)
    | Moves(bundle: nat, planned: bool, busy: bool)

  function Next(s: Site, e: Event): Site {
    match e
    case Edits(edit) => EditSite(s, edit)
    case Clock(now) => s.(clock := if now > s.clock then now else s.clock)
    case PreviewRule(user, rule) => BeginRule(s, user, rule)
    case PreviewPreset(user, preset, expected, body) => BeginPreset(s, user, preset, expected, body)
    case PreviewRunOnce(user, body) => BeginRunOnce(s, user, body)
    case Read(reading) => ReadActions(s, reading)
    case Store(reading, token) => StorePlan(s, reading, token)
    case Accept(plan, user, token, scope, valid, aftermath) => AcceptPlan(s, plan, user, token, scope, valid, aftermath).s
    case Direct(reading, request, cooled) => AdmitDirect(s, reading, request, cooled).s
    case Recovery(user, request, inverse) => AdmitRecovery(s, user, request, inverse)
    case Claim(bundle) => ClaimBundle(s, bundle)
    case Recheck(bundle) => if bundle < |s.bundles| then SetBundle(s, bundle, Rechecked(s.d, s.bundles[bundle])) else s
    case Persist(bundle) => if bundle < |s.bundles| then SetBundle(s, bundle, Persisted(s.d, s.bundles[bundle])) else s
    case Finish(bundle) => if bundle < |s.bundles| then SetBundle(s, bundle, Finished(s.bundles[bundle])) else s
    case Moves(bundle, planned, busy) =>
      if bundle < |s.bundles| then SetBundle(s, bundle, Progressed(s.bundles[bundle], planned, busy)) else s
  }

  function After(s: Site, es: seq<Event>): Site
    decreases |es|
  {
    if es == [] then s else After(Next(s, es[0]), es[1..])
  }
}
