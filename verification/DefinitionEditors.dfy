/** The edit handlers as statements on the tables, each inside its transaction. */
module DefinitionEditors {
  import opened Options
  import opened Ranking
  import opened DefinitionTables

  class Tables {
    var rules: map<nat, Rule>
    var presets: map<nat, Preset>
    const templates: map<nat, Template>
    var devices: set<nat>
    var nextRule: nat
    var nextPreset: nat
    var nextAction: nat
    var nextDevice: nat

    function S(): Definitions
      reads this
    {
      Definitions(rules, presets, templates, devices, nextRule, nextPreset, nextAction, nextDevice)
    }

    constructor (d: Definitions)
      ensures S() == d
    {
      rules, presets, templates, devices := d.rules, d.presets, d.templates, d.devices;
      nextRule, nextPreset, nextAction, nextDevice := d.nextRule, d.nextPreset, d.nextAction, d.nextDevice;
    }

    /** SELECT ... FOR UPDATE and the three refusals, in order. */
    method LockEdit(id: nat, revision: Option<nat>, busy: bool) returns (why: Option<Refusal>)
      ensures why == LockActionEdit(S(), id, revision, busy)
    {
      if id !in rules { return Some(NotFound); }
      var row := rules[id];
      if revision.Some? && revision.value != row.revision { return Some(RevisionChanged); }
      if row.activity != Clear { return Some(RuleBusy); }
      if busy { return Some(RuleBusy); }
      return None;
    }

    /** UPDATE rules SET automatic_reroute_enabled = 0, actions_revision = actions_revision + 1. */
    method DisarmEdit(id: nat)
      requires id in rules
      modifies `rules
      ensures rules == old(rules)[id := Disarmed(old(rules)[id])]
    {
      rules := rules[id := rules[id].(armed := false)];
      rules := rules[id := rules[id].(revision := rules[id].revision + 1)];
    }

    /** The SET list, left to right: a changed condition comes last and wins over a request to arm. */
    static method Assign(r: Rule, body: UpdateBody) returns (row: Rule)
      ensures row == UpdatedRule(r, body)
    {
      row := r.(enabled := Or(body.enabled, r.enabled));
      row := row.(armed := Or(body.arm, row.armed));
      row := row.(manualApply := Or(body.manualApply, row.manualApply));
      if body.condition.Some? {
        row := row.(condition := body.condition.value);
        row := row.(revision := row.revision + 1);
        row := row.(armed := false);
        row := row.(activity := Clear);
      }
    }

    method Update(id: nat, body: UpdateBody) returns (reply: Reply)
      modifies `rules
      ensures Edited(S(), reply) == UpdateRule(old(S()), id, body)
    {
      if id !in rules { return Refused(NotFound); }
      var r := rules[id];
      if body.arm == Some(true) {
        if exists a | a in r.actions :: a.enabled && !Automatic(templates, a.template) { return Refused(NotAutomatic); }
        if exists a | a in r.actions :: a.enabled && a.id in r.drifted { return Refused(InventoryDrifted); }
      }
      if (r.activity == Firing || r.activity == AwaitingRevert) && (body.condition.Some? || body.enabled == Some(false)) {
        return Refused(RuleBusy);
      }
      var row := Assign(r, body);
      rules := rules[id := row];
      return Done(id);
    }

    method Add(id: nat, draft: Draft, position: nat, busy: bool) returns (reply: Reply)
      modifies `rules, `nextAction
      ensures Edited(S(), reply) == AddAction(old(S()), id, draft, position, busy)
    {
      if id !in rules { return Refused(NotFound); }
      if draft.template !in templates || !templates[draft.template].enabled { return Refused(TemplateUnavailable); }
      if rules[id].armed && !templates[draft.template].automaticAllowed { return Refused(NotAutomatic); }
      if draft.device !in devices { return Refused(InvalidActions); }
      var why := LockEdit(id, None, busy);
      if why.Some? { return Refused(why.value); }
      DisarmEdit(id);
      var row := RowOf(nextAction, draft, position).(enabled := true);
      rules := rules[id := rules[id].(actions := rules[id].actions + [row])];
      reply := Done(nextAction);
      nextAction := nextAction + 1;
    }

    /** DELETE FROM rule_actions WHERE id = ?, keeping the other rows. */
    static method DeleteRow(actions: seq<Action>, id: nat) returns (kept: seq<Action>)
      ensures kept == Without(actions, id)
    {
      kept := [];
      for k := 0 to |actions|
        invariant kept == Without(actions[..k], id)
      {
        assert actions[..k + 1][..k] == actions[..k];
        if actions[k].id != id {
          kept := kept + [actions[k]];
        }
      }
      assert actions[..|actions|] == actions;
    }

    /** Without an affected row the transaction is dropped and nothing is committed. */
    method Detach(id: nat, action: nat, busy: bool) returns (reply: Reply)
      modifies `rules
      ensures Edited(S(), reply) == RemoveAction(old(S()), id, action, busy)
    {
      var why := LockEdit(id, None, busy);
      if why.Some? { return Refused(why.value); }
      var before := rules;
      DisarmEdit(id);
      if action !in Ids(rules[id].actions) {
        rules := before;
        return Refused(NotFound);
      }
      var kept := DeleteRow(rules[id].actions, action);
      rules := rules[id := rules[id].(actions := kept)];
      return Done(action);
    }

    /** INSERT ... for (position, action) in actions.iter().enumerate(). */
    method InsertRows(drafts: seq<Draft>) returns (rows: seq<Action>)
      modifies `nextAction
      ensures rows == Rows(drafts, old(nextAction)) && nextAction == old(nextAction) + |drafts|
    {
      rows := [];
      for k := 0 to |drafts|
        invariant nextAction == old(nextAction) + k && |rows| == k
        invariant forall j | 0 <= j < k :: rows[j] == RowOf(old(nextAction) + j, drafts[j], j)
      {
        rows := rows + [RowOf(nextAction, drafts[k], k)];
        nextAction := nextAction + 1;
      }
    }

    /** DELETE the rule's actions, then insert the new ones in order. */
    method RewriteActions(id: nat, drafts: seq<Draft>)
      requires id in rules
      modifies `rules, `nextAction
      ensures rules == old(rules)[id := old(rules)[id].(actions := Rows(drafts, old(nextAction)))]
      ensures nextAction == old(nextAction) + |drafts|
    {
      rules := rules[id := rules[id].(actions := [])];
      var rows := InsertRows(drafts);
      rules := rules[id := rules[id].(actions := rows)];
    }

    /** An import names a saved mitigation that is current; without one no revision may be given. */
    method CanImport(preset: Option<nat>, presetRevision: Option<nat>) returns (ok: bool)
      ensures ok <==> if preset.Some? then PresetCurrent(S(), preset.value, presetRevision) else presetRevision.None?
    {
      if preset.None? { return presetRevision.None?; }
      if preset.value !in presets || presets[preset.value].archived { return false; }
      return presetRevision == Some(presets[preset.value].revision);
    }

    method Replace(id: nat, revision: nat, drafts: seq<Draft>, preset: Option<nat>, presetRevision: Option<nat>, busy: bool)
      returns (reply: Reply)
      modifies `rules, `nextAction
      ensures Edited(S(), reply) == ReplaceActions(old(S()), id, revision, drafts, preset, presetRevision, busy)
    {
      if id !in rules { return Refused(NotFound); }
      if drafts != [] && !ValidDrafts(S(), drafts) { return Refused(InvalidActions); }
      var why := LockEdit(id, Some(revision), busy);
      if why.Some? { return Refused(why.value); }
      var importable := CanImport(preset, presetRevision);
      if !importable { return Refused(PresetChanged); }
      RewriteActions(id, drafts);
      DisarmEdit(id);
      return Done(id);
    }

    method Reorder(id: nat, order: seq<nat>, busy: bool) returns (reply: Reply)
      modifies `rules
      ensures Edited(S(), reply) == ReorderActions(old(S()), id, order, busy)
    {
      var existing := if id in rules then Ids(rules[id].actions) else [];
      if existing == [] { return Refused(NotFound); }
      if !NoRepeats(order) { return Refused(DuplicateAction); }
      if AsSet(order) != AsSet(existing) { return Refused(WrongActionSet); }
      var why := LockEdit(id, None, busy);
      if why.Some? { return Refused(why.value); }
      DisarmEdit(id);
      var rows := RenumberRows(rules[id].actions, order);
      rules := rules[id := rules[id].(actions := rows)];
      return Done(id);
    }

    /** One UPDATE per submitted id. */
    static method RenumberRows(actions: seq<Action>, order: seq<nat>) returns (rows: seq<Action>)
      ensures rows == Renumbered(actions, order)
    {
      rows := actions;
      for position := 0 to |order|
        invariant rows == Renumbered(actions, order[..position])
      {
        assert order[..position + 1][..position] == order[..position];
        rows := Moved(rows, order[position], position);
      }
      assert order[..|order|] == order;
    }

    method Save(id: Option<nat>, revision: Option<nat>, drafts: seq<Draft>) returns (reply: Reply)
      modifies `presets, `nextPreset, `nextAction
      ensures Edited(S(), reply) == SavePreset(old(S()), id, revision, drafts)
    {
      if |drafts| > MAX_ACTIONS { return Refused(InvalidActions); }
      for k := 0 to |drafts|
        invariant forall j | 0 <= j < k :: drafts[j].template in templates && drafts[j].device in devices
        invariant S() == old(S())
      {
        if drafts[k].template !in templates || drafts[k].device !in devices {
          assert drafts[k] in drafts;
          return Refused(InvalidActions);
        }
      }
      var saved;
      if id.Some? {
        if id.value !in presets { return Refused(NotFound); }
        var row := presets[id.value];
        if row.archived || revision != Some(row.revision) { return Refused(PresetChanged); }
        presets := presets[id.value := row.(revision := row.revision + 1)];
        saved := id.value;
      } else {
        saved := nextPreset;
        nextPreset := nextPreset + 1;
        presets := presets[saved := Preset([], 1, false)];
      }
      var rows := InsertRows(drafts);
      presets := presets[saved := presets[saved].(actions := rows)];
      return Done(saved);
    }

    /** UPDATE ... WHERE id = ? AND revision = ? AND archived_at IS NULL; no affected row is a conflict. */
    method Archive(id: nat, revision: nat) returns (reply: Reply)
      modifies `presets
      ensures Edited(S(), reply) == ArchivePreset(old(S()), id, revision)
    {
      if id !in presets || presets[id].revision != revision || presets[id].archived { return Refused(PresetChanged); }
      presets := presets[id := presets[id].(archived := true, revision := presets[id].revision + 1)];
      return Done(id);
    }
  }
}
