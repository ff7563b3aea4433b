/**
 Rules, saved mitigations and their ordered actions, and what every committed edit does to them:
 backend-rust/src/api/rules.rs, mitigation_presets.rs, devices.rs and reroute/inventory_audit.rs. Every edit of a
 rule runs under the policy fence and every edit of a saved mitigation in one row-locked transaction, so each
 is one step here.
 */
module DefinitionTables {
  import opened Options
  import opened Ranking
  import opened Sorting

  const MAX_ACTIONS := 256

  /** One rule_actions or mitigation_preset_actions row. */
  datatype Action = Action(
    id: nat, template: nat, device: nat, params: int, position: nat, enabled: bool, autoTarget: bool
  )

  /** The body of an action, as an editor submits it. */
  datatype Draft = Draft(template: nat, device: nat, params: int, enabled: bool, autoTarget: bool)

  datatype Activity = Clear | Matching | Firing | AwaitingRevert

  /** `condition` stands for metric, operator, threshold, persistence, recovery and flow selector together. */
  datatype Rule = Rule(
    actions: seq<Action>,
    condition: int,
    revision: nat,
    armed: bool,
    enabled: bool,
    manualApply: bool,
    activity: Activity,
    drifted: set<nat>,
    device: Option<nat>
  )

  datatype Preset = Preset(actions: seq<Action>, revision: nat, archived: bool)

  datatype Template = Template(enabled: bool, automaticAllowed: bool)

  datatype Definitions = Definitions(
    rules: map<nat, Rule>,
    presets: map<nat, Preset>,
    templates: map<nat, Template>,
    devices: set<nat>,
    nextRule: nat,
    nextPreset: nat,
    nextAction: nat,
    nextDevice: nat
  )

  datatype Refusal =
    | NotFound
    | TemplateUnavailable
    | NotAutomatic
    | InventoryDrifted
    | RuleBusy
    | RevisionChanged
    | PresetChanged
    | InvalidActions
    | DuplicateAction
    | WrongActionSet
    | DeviceInUse

  datatype Reply = Done(id: nat) | Refused(why: Refusal)

  datatype Edited = Edited(d: Definitions, reply: Reply)

  // ---- reading ----

  function Position(a: Action): int { a.position }

  function EnabledOnly(actions: seq<Action>): seq<Action> {
    if actions == [] then []
    else
      var rest := EnabledOnly(actions[..|actions| - 1]);
      if actions[|actions| - 1].enabled then rest + [actions[|actions| - 1]] else rest
  }

  /** SELECT ... WHERE enabled = 1 ORDER BY position, id: rows are kept in id order and the sort is stable. */
  function Listed(actions: seq<Action>): seq<Action> {
    SortBy(EnabledOnly(actions), Position)
  }

  /** SELECT ... ORDER BY position, id. */
  function ListedAll(actions: seq<Action>): seq<Action> {
    SortBy(actions, Position)
  }

  function Ids(actions: seq<Action>): seq<nat> {
    seq(|actions|, k requires 0 <= k < |actions| => actions[k].id)
  }

  /** The template row lets an armed rule run it. */
  predicate Automatic(templates: map<nat, Template>, template: nat) {
    template in templates && templates[template].enabled && templates[template].automaticAllowed
  }

  // ---- edits of a rule ----

  function SetRule(d: Definitions, id: nat, r: Rule): Definitions {
    d.(rules := d.rules[id := r])
  }

  /** lock_action_edit: the submitted revision, if any, is current, the rule is clear and owns no unfinished run. */
  function LockActionEdit(d: Definitions, id: nat, revision: Option<nat>, busy: bool): Option<Refusal> {
    if id !in d.rules then Some(NotFound)
    else if revision.Some? && revision.value != d.rules[id].revision then Some(RevisionChanged)
    else if d.rules[id].activity != Clear || busy then Some(RuleBusy)
    else None
  }

  /** disarm_action_edit */
  function Disarmed(r: Rule): Rule {
    r.(armed := false, revision := r.revision + 1)
  }

  /** POST /api/rules: may be created armed, and has no action yet. */
  function CreateRule(d: Definitions, condition: int, arm: bool, enabled: bool, manualApply: bool, device: Option<nat>): Edited {
    if device.Some? && device.value !in d.devices then Edited(d, Refused(NotFound))
    else
      Edited(
        SetRule(d, d.nextRule, Rule([], condition, 1, arm, enabled, manualApply, Clear, {}, device)).(nextRule := d.nextRule + 1),
        Done(d.nextRule))
  }

  datatype UpdateBody = UpdateBody(condition: Option<int>, arm: Option<bool>, enabled: Option<bool>, manualApply: Option<bool>)

  function Or<T>(o: Option<T>, otherwise: T): T {
    if o.Some? then o.value else otherwise
  }

  /** PUT /api/rules/{id}: the later assignment of automatic_reroute_enabled wins. */
  function UpdatedRule(r: Rule, b: UpdateBody): Rule {
    r.(
      condition := Or(b.condition, r.condition),
      enabled := Or(b.enabled, r.enabled),
      manualApply := Or(b.manualApply, r.manualApply),
      revision := if b.condition.Some? then r.revision + 1 else r.revision,
      armed := if b.condition.Some? then false else Or(b.arm, r.armed),
      activity := if b.condition.Some? then Clear else r.activity
    )
  }

  function UpdateRule(d: Definitions, id: nat, b: UpdateBody): Edited {
    if id !in d.rules then Edited(d, Refused(NotFound))
    else
      var r := d.rules[id];
      if b.arm == Some(true) && exists a | a in r.actions :: a.enabled && !Automatic(d.templates, a.template) then
        Edited(d, Refused(NotAutomatic))
      else if b.arm == Some(true) && exists a | a in r.actions :: a.enabled && a.id in r.drifted then
        Edited(d, Refused(InventoryDrifted))
      else if (r.activity == Firing || r.activity == AwaitingRevert) && (b.condition.Some? || b.enabled == Some(false)) then
        Edited(d, Refused(RuleBusy))
      else Edited(SetRule(d, id, UpdatedRule(r, b)), Done(id))
  }

  /** DELETE /api/rules/{id}; `owns` says whether the rule owns mutations that must be restored first. */
  function RemoveRule(d: Definitions, id: nat, owns: bool): Edited {
    if id in d.rules && (d.rules[id].activity == Firing || d.rules[id].activity == AwaitingRevert) then
      Edited(d, Refused(RuleBusy))
    else if owns then Edited(d, Refused(RuleBusy))
    else if id !in d.rules then Edited(d, Refused(NotFound))
    else Edited(d.(rules := d.rules - {id}), Done(id))
  }

  function RowOf(id: nat, draft: Draft, position: nat): Action {
    Action(id, draft.template, draft.device, draft.params, position, draft.enabled, draft.autoTarget)
  }

  /** POST /api/rules/{id}/actions: enabled, at the position asked for. */
  function AddAction(d: Definitions, id: nat, draft: Draft, position: nat, busy: bool): Edited {
    if id !in d.rules then Edited(d, Refused(NotFound))
    else if draft.template !in d.templates || !d.templates[draft.template].enabled then Edited(d, Refused(TemplateUnavailable))
    else if d.rules[id].armed && !d.templates[draft.template].automaticAllowed then Edited(d, Refused(NotAutomatic))
    else if draft.device !in d.devices then Edited(d, Refused(InvalidActions))
    else
      var lock := LockActionEdit(d, id, None, busy);
      if lock.Some? then Edited(d, Refused(lock.value))
      else
        var row := RowOf(d.nextAction, draft, position).(enabled := true);
        var r := Disarmed(d.rules[id]);
        Edited(SetRule(d, id, r.(actions := r.actions + [row])).(nextAction := d.nextAction + 1), Done(d.nextAction))
  }

  function Without(actions: seq<Action>, id: nat): seq<Action> {
    if actions == [] then []
    else
      var rest := Without(actions[..|actions| - 1], id);
      if actions[|actions| - 1].id == id then rest else rest + [actions[|actions| - 1]]
  }

  /** DELETE /api/rules/{id}/actions/{action}: a foreign id rolls the transaction back. */
  function RemoveAction(d: Definitions, id: nat, action: nat, busy: bool): Edited {
    var lock := LockActionEdit(d, id, None, busy);
    if lock.Some? then Edited(d, Refused(lock.value))
    else if action !in Ids(d.rules[id].actions) then Edited(d, Refused(NotFound))
    else
      var r := Disarmed(d.rules[id]);
      Edited(SetRule(d, id, r.(actions := Without(r.actions, action))), Done(action))
  }

  /** The part of validate_drafts that reads the catalogue: counts, known templates and devices, enabled templates. */
  predicate ValidDrafts(d: Definitions, drafts: seq<Draft>) {
    && 0 < |drafts| <= MAX_ACTIONS
    && (exists a | a in drafts :: a.enabled)
    && (forall a | a in drafts :: a.template in d.templates && a.device in d.devices)
    && (forall a | a in drafts && a.enabled :: d.templates[a.template].enabled)
  }

  /** INSERT of the drafts in order, position = index. */
  function Rows(drafts: seq<Draft>, next: nat): (r: seq<Action>)
    ensures |r| == |drafts|
  {
    seq(|drafts|, k requires 0 <= k < |drafts| => RowOf(next + k, drafts[k], k))
  }

  /** PUT /api/rules/{id}/actions: the whole ordered set at once, optionally imported from a saved mitigation. */
  function ReplaceActions(d: Definitions, id: nat, revision: nat, drafts: seq<Draft>,
                          preset: Option<nat>, presetRevision: Option<nat>, busy: bool): Edited {
    if id !in d.rules then Edited(d, Refused(NotFound))
    else if drafts != [] && !ValidDrafts(d, drafts) then Edited(d, Refused(InvalidActions))
    else
      var lock := LockActionEdit(d, id, Some(revision), busy);
      if lock.Some? then Edited(d, Refused(lock.value))
      else if preset.Some? && !PresetCurrent(d, preset.value, presetRevision) then Edited(d, Refused(PresetChanged))
      else if preset.None? && presetRevision.Some? then Edited(d, Refused(PresetChanged))
      else
        var r := Disarmed(d.rules[id]);
        Edited(
          SetRule(d, id, r.(actions := Rows(drafts, d.nextAction))).(nextAction := d.nextAction + |drafts|),
          Done(id))
  }

  predicate PresetCurrent(d: Definitions, id: nat, revision: Option<nat>) {
    id in d.presets && !d.presets[id].archived && revision == Some(d.presets[id].revision)
  }

  /** The row with this id moves to a new position; all others stay. */
  function Moved(actions: seq<Action>, id: nat, position: nat): (r: seq<Action>)
    ensures |r| == |actions|
  {
    seq(|actions|, k requires 0 <= k < |actions| =>
      if actions[k].id == id then actions[k].(position := position) else actions[k])
  }

  /** UPDATE ... SET position = ? for every submitted id in turn. */
  function Renumbered(actions: seq<Action>, order: seq<nat>): (r: seq<Action>)
    ensures |r| == |actions|
  {
    if order == [] then actions
    else Moved(Renumbered(actions, order[..|order| - 1]), order[|order| - 1], |order| - 1)
  }

  predicate NoRepeats(s: seq<nat>) {
    |AsSet(s)| == |s|
  }

  /** POST /api/rules/{id}/actions/reorder: the list must name exactly the rule's actions. */
  function ReorderActions(d: Definitions, id: nat, order: seq<nat>, busy: bool): Edited {
    var existing := if id in d.rules then Ids(d.rules[id].actions) else [];
    if existing == [] then Edited(d, Refused(NotFound))
    else if !NoRepeats(order) then Edited(d, Refused(DuplicateAction))
    else if AsSet(order) != AsSet(existing) then Edited(d, Refused(WrongActionSet))
    else
      var lock := LockActionEdit(d, id, None, busy);
      if lock.Some? then Edited(d, Refused(lock.value))
      else
        var r := Disarmed(d.rules[id]);
        Edited(SetRule(d, id, r.(actions := Renumbered(r.actions, order))), Done(id))
  }

  /** record_drift: marks one action and switches automatic execution off, unless the rule is not clear. */
  function RecordDrift(d: Definitions, id: nat, action: nat): Edited {
    if id !in d.rules || d.rules[id].activity != Clear then Edited(d, Refused(RuleBusy))
    else
      var r := d.rules[id];
      Edited(SetRule(d, id, r.(drifted := r.drifted + {action}, armed := false)), Done(id))
  }

  /** clear_drift: the marker goes, the rule stays disarmed. */
  function ClearDrift(d: Definitions, id: nat, action: nat): Edited {
    if id !in d.rules then Edited(d, Refused(NotFound))
    else Edited(SetRule(d, id, d.rules[id].(drifted := d.rules[id].drifted - {action})), Done(id))
  }

  /** The detection engine moves a rule between its states. */
  function SetActivity(d: Definitions, id: nat, activity: Activity): Edited {
    if id !in d.rules then Edited(d, Refused(NotFound))
    else Edited(SetRule(d, id, d.rules[id].(activity := activity)), Done(id))
  }

  // ---- edits of a saved mitigation ----

  /** POST and PUT /api/mitigation-presets. */
  function SavePreset(d: Definitions, id: Option<nat>, revision: Option<nat>, drafts: seq<Draft>): Edited {
    if |drafts| > MAX_ACTIONS then Edited(d, Refused(InvalidActions))
    else if exists a | a in drafts :: a.template !in d.templates || a.device !in d.devices then Edited(d, Refused(InvalidActions))
    else if id.Some? && id.value !in d.presets then Edited(d, Refused(NotFound))
    else if id.Some? && !PresetCurrent(d, id.value, revision) then Edited(d, Refused(PresetChanged))
    else
      var saved := Or(id, d.nextPreset);
      var next := if id.Some? then d.presets[saved].revision + 1 else 1;
      Edited(
        d.(presets := d.presets[saved := Preset(Rows(drafts, d.nextAction), next, false)],
           nextPreset := if id.Some? then d.nextPreset else d.nextPreset + 1,
           nextAction := d.nextAction + |drafts|),
        Done(saved))
  }

  function ArchivePreset(d: Definitions, id: nat, revision: nat): Edited {
    if !PresetCurrent(d, id, Some(revision)) then Edited(d, Refused(PresetChanged))
    else
      var p := d.presets[id];
      Edited(d.(presets := d.presets[id := p.(archived := true, revision := p.revision + 1)]), Done(id))
  }

  // ---- routers come and go ----

  /** POST /api/devices; ids are never handed out twice. */
  function EnrollDevice(d: Definitions): Edited {
    Edited(d.(devices := d.devices + {d.nextDevice}, nextDevice := d.nextDevice + 1), Done(d.nextDevice))
  }

  function OffDevice(actions: seq<Action>, device: nat): seq<Action> {
    if actions == [] then []
    else
      var rest := OffDevice(actions[..|actions| - 1], device);
      if actions[|actions| - 1].device == device then rest else rest + [actions[|actions| - 1]]
  }

  /**
   DELETE /api/devices/{id}: refused for a router with execution history, or one that a saved mitigation or the action
   ledger of a run uses (RESTRICT; `history` covers executions and ledgers);
   otherwise the rules and the rule actions on it go with it (CASCADE).
   */
  function RemoveDevice(d: Definitions, device: nat, history: bool): Edited {
    if history || device !in d.devices then Edited(d, Refused(DeviceInUse))
    else if exists p | p in d.presets :: exists a | a in d.presets[p].actions :: a.device == device then
      Edited(d, Refused(DeviceInUse))
    else
      Edited(
        d.(devices := d.devices - {device},
           rules := map id | id in d.rules && d.rules[id].device != Some(device) ::
             d.rules[id].(actions := OffDevice(d.rules[id].actions, device))),
        Done(device))
  }

  // ---- all of them ----

  datatype Edit =
    | Create(condition: int, arm: bool, enabled: bool, manualApply: bool, device: Option<nat>)
    | Update(id: nat, body: UpdateBody)
    | Remove(id: nat, owns: bool)
    | Add(id: nat, draft: Draft, position: nat, busy: bool)
    | Detach(id: nat, action: nat, busy: bool)
    | Replace(id: nat, revision: nat, drafts: seq<Draft>, preset: Option<nat>, presetRevision: Option<nat>, busy: bool)
    | Reorder(id: nat, order: seq<nat>, busy: bool)
    | Drift(id: nat, action: nat)
    | Recover(id: nat, action: nat)
    | Observe(id: nat, activity: Activity)
    | Save(preset: Option<nat>, expected: Option<nat>, drafts: seq<Draft>)
    | Archive(presetId: nat, expectedRevision: nat)
    | Enroll
    | DropDevice(router: nat, history: bool)

  function Apply(d: Definitions, e: Edit): Edited {
    match e
    case Create(condition, arm, enabled, manualApply, device) => CreateRule(d, condition, arm, enabled, manualApply, device)
    case Update(id, body) => UpdateRule(d, id, body)
    case Remove(id, owns) => RemoveRule(d, id, owns)
    case Add(id, draft, position, busy) => AddAction(d, id, draft, position, busy)
    case Detach(id, action, busy) => RemoveAction(d, id, action, busy)
    case Replace(id, revision, drafts, preset, presetRevision, busy) =>
      ReplaceActions(d, id, revision, drafts, preset, presetRevision, busy)
    case Reorder(id, order, busy) => ReorderActions(d, id, order, busy)
    case Drift(id, action) => RecordDrift(d, id, action)
    case Recover(id, action) => ClearDrift(d, id, action)
    case Observe(id, activity) => SetActivity(d, id, activity)
    case Save(preset, expected, drafts) => SavePreset(d, preset, expected, drafts)
    case Archive(presetId, expectedRevision) => ArchivePreset(d, presetId, expectedRevision)
    case Enroll => EnrollDevice(d)
    case DropDevice(router, history) => RemoveDevice(d, router, history)
  }
}
