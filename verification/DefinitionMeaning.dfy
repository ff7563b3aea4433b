/**
 When each edit goes through and what it leaves behind, said of the rows themselves; and over runs of edits, that an editor
 overwrites only what it has seen.
 */
module DefinitionMeaning {
  import opened Options
  import opened Ranking
  import opened Sorting
  import opened DefinitionTables
  import opened DefinitionSafety

  // ---- when an edit goes through ----

  /** The rule exists, is in its normal state and owns no unfinished run. */
  predicate Idle(d: Definitions, id: nat, busy: bool) {
    id in d.rules && d.rules[id].activity == Clear && !busy
  }

  predicate InIncident(r: Rule) { r.activity == Firing || r.activity == AwaitingRevert }

  /** The saved mitigation is there, not archived, and at the revision the editor saw. */
  predicate AsSeen(d: Definitions, preset: nat, revision: Option<nat>) {
    preset in d.presets && !d.presets[preset].archived && revision == Some(d.presets[preset].revision)
  }

  predicate Known(d: Definitions, drafts: seq<Draft>) {
    |drafts| <= 256 && forall k | 0 <= k < |drafts| :: drafts[k].template in d.templates && drafts[k].device in d.devices
  }

  /** A set to run: some action enabled, and the template of every enabled one too. */
  predicate Usable(d: Definitions, drafts: seq<Draft>) {
    && Known(d, drafts) && (exists k | 0 <= k < |drafts| :: drafts[k].enabled)
    && forall k | 0 <= k < |drafts| && drafts[k].enabled :: d.templates[drafts[k].template].enabled
  }

  /** Every enabled action of the rule may run by itself and is not marked as drifted. */
  predicate MayRunAlone(d: Definitions, r: Rule) {
    forall k | 0 <= k < |r.actions| && r.actions[k].enabled ::
      && r.actions[k].template in d.templates && d.templates[r.actions[k].template].enabled
      && d.templates[r.actions[k].template].automaticAllowed && r.actions[k].id !in r.drifted
  }

  /** The list names every action of the rule once. */
  ghost predicate NamesAll(order: seq<nat>, actions: seq<Action>) {
    && (forall j, k | 0 <= j < k < |order| :: order[j] != order[k])
    && (forall j | 0 <= j < |order| :: exists k | 0 <= k < |actions| :: actions[k].id == order[j])
    && (forall k | 0 <= k < |actions| :: actions[k].id in order)
  }

  ghost predicate Accepts(d: Definitions, e: Edit) {
    match e
    case Create(_, _, _, _, device) => device.None? || device.value in d.devices
    case Update(id, b) =>
      && id in d.rules && (b.arm == Some(true) ==> MayRunAlone(d, d.rules[id]))
      && (InIncident(d.rules[id]) ==> b.condition.None? && b.enabled != Some(false))
    case Remove(id, owns) => id in d.rules && !InIncident(d.rules[id]) && !owns
    case Add(id, draft, _, busy) =>
      && Idle(d, id, busy) && draft.device in d.devices
      && draft.template in d.templates && d.templates[draft.template].enabled
      && (d.rules[id].armed ==> d.templates[draft.template].automaticAllowed)
    case Detach(id, action, busy) =>
      Idle(d, id, busy) && exists k | 0 <= k < |d.rules[id].actions| :: d.rules[id].actions[k].id == action
    case Replace(id, revision, drafts, preset, presetRevision, busy) =>
      && Idle(d, id, busy) && revision == d.rules[id].revision && (drafts == [] || Usable(d, drafts))
      && if preset.Some? then AsSeen(d, preset.value, presetRevision) else presetRevision == None
    case Reorder(id, order, busy) => Idle(d, id, busy) && d.rules[id].actions != [] && NamesAll(order, d.rules[id].actions)
    case Drift(id, _) => id in d.rules && d.rules[id].activity == Clear
    case Recover(id, _) => id in d.rules
    case Observe(id, _) => id in d.rules
    case Save(preset, expected, drafts) => Known(d, drafts) && (preset.Some? ==> AsSeen(d, preset.value, expected))
    case Archive(id, revision) => AsSeen(d, id, Some(revision))
    case Enroll => true
    case DropDevice(router, history) =>
      && !history && router in d.devices
      && forall p | p in d.presets :: forall k | 0 <= k < |d.presets[p].actions| :: d.presets[p].actions[k].device != router
  }

  lemma NamesAllIs(order: seq<nat>, actions: seq<Action>)
    ensures NamesAll(order, actions) <==> NoRepeats(order) && AsSet(order) == AsSet(DefinitionTables.Ids(actions))
  {
    var ids := DefinitionTables.Ids(actions);
    assert forall k | 0 <= k < |actions| :: ids[k] == actions[k].id;
    if NoRepeats(order) {
      NoRepeatsIsDistinct(order);
    }
    if NamesAll(order, actions) {
      DistinctSize(order);
      forall x ensures x in AsSet(order) <==> x in AsSet(ids) {
        if x in AsSet(order) {
          var j :| 0 <= j < |order| && order[j] == x;
          var k :| 0 <= k < |actions| && actions[k].id == order[j];
          assert ids[k] == x;
        }
      }
    }
    if NoRepeats(order) && AsSet(order) == AsSet(ids) {
      forall j | 0 <= j < |order| ensures exists k | 0 <= k < |actions| :: actions[k].id == order[j] {
        assert order[j] in AsSet(ids);
        var k :| 0 <= k < |ids| && ids[k] == order[j];
        assert actions[k].id == order[j];
      }
      forall k | 0 <= k < |actions| ensures actions[k].id in order {
        assert ids[k] in AsSet(order);
      }
    }
  }

  lemma ReorderDoneIff(d: Definitions, e: Edit)
    requires e.Reorder?
    ensures Apply(d, e).reply.Done? <==> Accepts(d, e)
  {
    if e.id in d.rules {
      NamesAllIs(e.order, d.rules[e.id].actions);
      assert d.rules[e.id].actions == [] <==> DefinitionTables.Ids(d.rules[e.id].actions) == [];
    }
  }

  lemma DraftsAre(d: Definitions, drafts: seq<Draft>)
    ensures ValidDrafts(d, drafts) <==> Usable(d, drafts)
    ensures Known(d, drafts) <==>
      |drafts| <= MAX_ACTIONS && forall a | a in drafts :: a.template in d.templates && a.device in d.devices
  {
    assert forall k | 0 <= k < |drafts| :: drafts[k] in drafts;
  }

  lemma ArmingIs(d: Definitions, r: Rule)
    ensures MayRunAlone(d, r) <==>
      && (forall a | a in r.actions && a.enabled :: Automatic(d.templates, a.template))
      && (forall a | a in r.actions && a.enabled :: a.id !in r.drifted)
  {
    assert forall k | 0 <= k < |r.actions| :: r.actions[k] in r.actions;
  }

  lemma DetachDoneIff(d: Definitions, e: Edit)
    requires e.Detach?
    ensures Apply(d, e).reply.Done? <==> Accepts(d, e)
  {
    if e.id in d.rules {
      var actions, ids := d.rules[e.id].actions, DefinitionTables.Ids(d.rules[e.id].actions);
      assert forall k | 0 <= k < |actions| :: ids[k] == actions[k].id;
      assert e.action in ids <==> exists k | 0 <= k < |actions| :: actions[k].id == e.action;
    }
  }

  lemma DropDoneIff(d: Definitions, e: Edit)
    requires e.DropDevice?
    ensures Apply(d, e).reply.Done? <==> Accepts(d, e)
  {
    assert forall p | p in d.presets ::
      forall k | 0 <= k < |d.presets[p].actions| :: d.presets[p].actions[k] in d.presets[p].actions;
  }

  /** Every edit goes through exactly then; one that does not changes nothing. */
  lemma DoneIff(d: Definitions, e: Edit)
    ensures Apply(d, e).reply.Done? <==> Accepts(d, e)
    ensures Apply(d, e).reply.Refused? ==> Apply(d, e).d == d
  {
    match e
    case Update(id, _) => if id in d.rules { ArmingIs(d, d.rules[id]); }
    case Detach(_, _, _) => DetachDoneIff(d, e);
    case Replace(_, _, drafts, _, _, _) => DraftsAre(d, drafts);
    case Reorder(_, _, _) => ReorderDoneIff(d, e);
    case Save(_, _, drafts) => DraftsAre(d, drafts);
    case DropDevice(_, _) => DropDoneIff(d, e);
    case _ =>
  }

  // ---- what an edit leaves behind ----

  ghost predicate Precedes(rows: seq<Action>, a: Action, b: Action) {
    exists k, l | 0 <= k < l < |rows| :: rows[k] == a && rows[l] == b
  }

  /** Whatever stands before another in `kept` stands before it in `rows`. */
  ghost predicate SameOrder(rows: seq<Action>, kept: seq<Action>) {
    forall i, j | 0 <= i < j < |kept| :: Precedes(rows, kept[i], kept[j])
  }

  /** `kept` is `rows` less the row with this id, or less the rows on this router; each once, in the same order. */
  ghost predicate KeptBut(rows: seq<Action>, kept: seq<Action>, id: Option<nat>, device: Option<nat>) {
    && (forall a :: a in kept <==> a in rows && Some(a.id) != id && Some(a.device) != device)
    && DistinctIds(kept) && SameOrder(rows, kept)
  }

  lemma PrecedesMore(rows: seq<Action>, last: Action, a: Action, b: Action)
    ensures Precedes(rows, a, b) ==> Precedes(rows + [last], a, b)
    ensures a in rows ==> Precedes(rows + [last], a, last)
  {
    var more := rows + [last];
    if Precedes(rows, a, b) {
      var k, l :| 0 <= k < l < |rows| && rows[k] == a && rows[l] == b;
      assert more[k] == a && more[l] == b;
    }
    if a in rows {
      var k :| 0 <= k < |rows| && rows[k] == a;
      assert more[k] == a && more[|rows|] == last;
    }
  }

  lemma OrderGrows(rows: seq<Action>, kept: seq<Action>, last: Action)
    requires SameOrder(rows, kept) && forall a | a in kept :: a in rows
    ensures SameOrder(rows + [last], kept) && SameOrder(rows + [last], kept + [last])
  {
    forall i, j | 0 <= i < j < |kept| + 1 ensures Precedes(rows + [last], (kept + [last])[i], (kept + [last])[j]) {
      PrecedesMore(rows, last, (kept + [last])[i], (kept + [last])[j]);
    }
    forall i, j | 0 <= i < j < |kept| ensures Precedes(rows + [last], kept[i], kept[j]) {
      PrecedesMore(rows, last, kept[i], kept[j]);
    }
  }

  lemma {:induction false} WithoutKeepsOrder(rows: seq<Action>, id: nat)
    ensures forall a :: a in Without(rows, id) <==> a in rows && a.id != id
    ensures SameOrder(rows, Without(rows, id))
  {
    if rows != [] {
      var front, last := rows[..|rows| - 1], rows[|rows| - 1];
      assert rows == front + [last];
      WithoutKeepsOrder(front, id);
      OrderGrows(front, Without(front, id), last);
    }
  }

  lemma {:induction false} OffDeviceKeepsOrder(rows: seq<Action>, device: nat)
    ensures forall a :: a in OffDevice(rows, device) <==> a in rows && a.device != device
    ensures SameOrder(rows, OffDevice(rows, device))
  {
    if rows != [] {
      var front, last := rows[..|rows| - 1], rows[|rows| - 1];
      assert rows == front + [last];
      OffDeviceKeepsOrder(front, device);
      OrderGrows(front, OffDevice(front, device), last);
    }
  }

  /** Rule id is now r, and nothing else has changed but the next action id. */
  predicate OneRule(d: Definitions, d': Definitions, id: nat, r: Rule) {
    d' == d.(rules := d.rules[id := r], nextAction := d'.nextAction)
  }

  /** The rows are the drafts in their order, under new ids. */
  predicate Written(d: Definitions, drafts: seq<Draft>, rows: seq<Action>) {
    && |rows| == |drafts|
    && forall k | 0 <= k < |drafts| ::
         var a := drafts[k];
         rows[k] == Action(d.nextAction + k, a.template, a.device, a.params, k, a.enabled, a.autoTarget)
  }

  /** An edit of the actions is another revision of the rule, and switches its automatic execution off. */
  predicate Revised(r: Rule, r': Rule) {
    r' == r.(actions := r'.actions, armed := false, revision := r.revision + 1)
  }

  lemma DetachLeaves(d: Definitions, e: Edit)
    requires WellFormed(d) && e.Detach? && Apply(d, e).reply.Done?
    ensures
      var d' := Apply(d, e).d;
      && e.id in d'.rules && OneRule(d, d', e.id, d'.rules[e.id]) && d'.nextAction == d.nextAction
      && Revised(d.rules[e.id], d'.rules[e.id])
      && KeptBut(d.rules[e.id].actions, d'.rules[e.id].actions, Some(e.action), None)
  {
    WithoutKeepsOrder(d.rules[e.id].actions, e.action);
    WithoutFits(d, d.rules[e.id].actions, e.action);
  }

  lemma AddLeaves(d: Definitions, e: Edit)
    requires e.Add? && Apply(d, e).reply.Done?
    ensures
      var d' := Apply(d, e).d;
      && e.id in d'.rules && OneRule(d, d', e.id, d'.rules[e.id]) && d'.nextAction == d.nextAction + 1
      && Revised(d.rules[e.id], d'.rules[e.id])
      && d'.rules[e.id].actions == d.rules[e.id].actions
           + [Action(d.nextAction, e.draft.template, e.draft.device, e.draft.params, e.position, true, e.draft.autoTarget)]
  {
  }

  lemma ReplaceLeaves(d: Definitions, e: Edit)
    requires e.Replace? && Apply(d, e).reply.Done?
    ensures
      var d' := Apply(d, e).d;
      && e.id in d'.rules && OneRule(d, d', e.id, d'.rules[e.id]) && d'.nextAction == d.nextAction + |e.drafts|
      && Revised(d.rules[e.id], d'.rules[e.id]) && Written(d, e.drafts, d'.rules[e.id].actions)
  {
  }

  lemma ReorderLeaves(d: Definitions, e: Edit)
    requires WellFormed(d) && e.Reorder? && Apply(d, e).reply.Done?
    ensures
      var d' := Apply(d, e).d;
      && e.id in d'.rules && OneRule(d, d', e.id, d'.rules[e.id]) && d'.nextAction == d.nextAction
      && Revised(d.rules[e.id], d'.rules[e.id]) && |d'.rules[e.id].actions| == |d.rules[e.id].actions| == |e.order|
      && forall k | 0 <= k < |e.order| ::
           var a, a' := d.rules[e.id].actions[k], d'.rules[e.id].actions[k];
           a' == a.(position := a'.position) && a'.position < |e.order| && e.order[a'.position] == a.id
  {
    var before := d.rules[e.id].actions;
    NoRepeatsIsDistinct(e.order);
    assert RowsFit(d, before);
    RenumberedRows(before, e.order);
    PositionsDiffer(before, e.order, Renumbered(before, e.order));
  }

  /**
   A submitted field is stored; a submitted condition is another revision, switches automatic execution off and clears the
   rule.
   */
  lemma UpdateLeaves(d: Definitions, e: Edit)
    requires e.Update? && Apply(d, e).reply.Done?
    ensures
      var d', b := Apply(d, e).d, e.body;
      && e.id in d'.rules && OneRule(d, d', e.id, d'.rules[e.id]) && d'.nextAction == d.nextAction
      && var r, r' := d.rules[e.id], d'.rules[e.id];
      && r'.actions == r.actions && r'.drifted == r.drifted && r'.device == r.device
      && (if b.enabled.Some? then r'.enabled == b.enabled.value else r'.enabled == r.enabled)
      && (if b.manualApply.Some? then r'.manualApply == b.manualApply.value else r'.manualApply == r.manualApply)
      && if b.condition.Some? then
           r'.condition == b.condition.value && r'.revision == r.revision + 1 && !r'.armed && r'.activity == Clear
         else
           && r'.condition == r.condition && r'.revision == r.revision && r'.activity == r.activity
           && (if b.arm.Some? then r'.armed == b.arm.value else r'.armed == r.armed)
  {
  }

  /** Drift switches automatic execution off, its end does not switch it on; the engine moves only the rule's state. */
  lemma MarksLeave(d: Definitions, e: Edit)
    requires (e.Drift? || e.Recover? || e.Observe?) && Apply(d, e).reply.Done?
    ensures
      var d' := Apply(d, e).d;
      && e.id in d'.rules && OneRule(d, d', e.id, d'.rules[e.id]) && d'.nextAction == d.nextAction
      && var r, r' := d.rules[e.id], d'.rules[e.id];
      && r'.actions == r.actions && r'.condition == r.condition && r'.revision == r.revision
      && r'.enabled == r.enabled && r'.manualApply == r.manualApply && r'.device == r.device
      && (r'.armed <==> r.armed && !e.Drift?)
      && r'.activity == (if e.Observe? then e.activity else r.activity)
      && forall x :: x in r'.drifted <==>
           if e.Drift? && x == e.action then true else x in r.drifted && (e.Recover? ==> x != e.action)
  {
  }

  lemma CreateLeaves(d: Definitions, e: Edit)
    requires WellFormed(d) && e.Create? && Apply(d, e).reply.Done?
    ensures
      var d', n := Apply(d, e).d, Apply(d, e).reply.id;
      && n !in d.rules && d' == d.(rules := d'.rules, nextRule := d'.nextRule) && n < d'.nextRule
      && d'.rules == d.rules[n := Rule([], e.condition, 1, e.arm, e.enabled, e.manualApply, Clear, {}, e.device)]
  {
  }

  lemma RemoveLeaves(d: Definitions, e: Edit)
    requires e.Remove? && Apply(d, e).reply.Done?
    ensures
      var d' := Apply(d, e).d;
      && d' == d.(rules := d'.rules) && d'.rules.Keys == d.rules.Keys - {e.id}
      && forall id | id in d'.rules :: d'.rules[id] == d.rules[id]
  {
  }

  /** A saved mitigation is another revision with the submitted actions; archiving one keeps its actions. */
  lemma PresetLeaves(d: Definitions, e: Edit)
    requires WellFormed(d) && (e.Save? || e.Archive?) && Apply(d, e).reply.Done?
    ensures
      var d', n := Apply(d, e).d, Apply(d, e).reply.id;
      && n in d'.presets
      && d' == d.(presets := d.presets[n := d'.presets[n]], nextPreset := d'.nextPreset, nextAction := d'.nextAction)
      && d'.presets[n].revision == (if n in d.presets then d.presets[n].revision + 1 else 1)
      && if e.Archive? then n == e.presetId && d'.presets[n].archived && d'.presets[n].actions == d.presets[n].actions
         else
           && (if e.preset.Some? then n == e.preset.value else n !in d.presets && n < d'.nextPreset)
           && !d'.presets[n].archived && Written(d, e.drafts, d'.presets[n].actions)
           && d'.nextAction == d.nextAction + |e.drafts|
  {
  }

  /** A dropped router takes its rules along, and from the other rules the actions on it; all else stays. */
  lemma DropLeaves(d: Definitions, e: Edit)
    requires WellFormed(d) && e.DropDevice? && Apply(d, e).reply.Done?
    ensures
      var d' := Apply(d, e).d;
      && d' == d.(devices := d.devices - {e.router}, rules := d'.rules)
      && (forall id :: id in d'.rules <==> id in d.rules && d.rules[id].device != Some(e.router))
      && forall id | id in d'.rules ::
           && d'.rules[id] == d.rules[id].(actions := d'.rules[id].actions)
           && KeptBut(d.rules[id].actions, d'.rules[id].actions, None, Some(e.router))
  {
    forall id | id in Apply(d, e).d.rules
      ensures KeptBut(d.rules[id].actions, Apply(d, e).d.rules[id].actions, None, Some(e.router))
    {
      OffDeviceKeepsOrder(d.rules[id].actions, e.router);
      OffDeviceFits(d, d.rules[id].actions, e.router);
    }
  }

  // ---- over runs of edits ----

  function Edits(d: Definitions, es: seq<Edit>): Definitions
    decreases |es|
  {
    if es == [] then d else Edits(Apply(d, es[0]).d, es[1..])
  }

  /** The rule is gone for good or past the revision. */
  predicate Past(d: Definitions, id: nat, revision: nat) {
    id < d.nextRule && (id in d.rules ==> d.rules[id].revision > revision)
  }

  predicate PresetPast(d: Definitions, id: nat, revision: nat) {
    id in d.presets && d.presets[id].revision > revision
  }

  lemma PastStays(d: Definitions, e: Edit, id: nat, revision: nat)
    requires WellFormed(d) && Past(d, id, revision)
    ensures Past(Apply(d, e).d, id, revision)
  {
    CountersGrow(d, e);
    if id in Apply(d, e).d.rules {
      NoneReturns(d, e, id);
      RuleRevision(d, e, id);
    }
  }

  lemma NoneReturns(d: Definitions, e: Edit, id: nat)
    requires id < d.nextRule && id in Apply(d, e).d.rules
    ensures id in d.rules
  {
  }

  lemma {:induction false} PastOverRun(d: Definitions, es: seq<Edit>, id: nat, revision: nat)
    requires WellFormed(d)
    ensures WellFormed(Edits(d, es))
    ensures Past(d, id, revision) ==> Past(Edits(d, es), id, revision)
    ensures PresetPast(d, id, revision) ==> PresetPast(Edits(d, es), id, revision)
    decreases |es|
  {
    if es != [] {
      EditWellFormed(d, es[0]);
      if Past(d, id, revision) { PastStays(d, es[0], id, revision); }
      if id in d.presets { PresetRevision(d, es[0], id); }
      PastOverRun(Apply(d, es[0]).d, es[1..], id, revision);
    }
  }

  /** Of two replacements of one rule's actions submitted with the same revision, at most one goes through. */
  lemma OneReplacementPerRevision(d: Definitions, first: Edit, es: seq<Edit>, second: Edit)
    requires WellFormed(d) && first.Replace? && second.Replace? && first.id == second.id && first.revision == second.revision
    requires Apply(d, first).reply.Done?
    ensures
      var now := Edits(Apply(d, first).d, es);
      Apply(now, second).reply.Refused? && Apply(now, second).d == now
  {
    DoneIff(d, first);
    EditWellFormed(d, first);
    PastOverRun(Apply(d, first).d, es, first.id, first.revision);
    DoneIff(Edits(Apply(d, first).d, es), second);
  }

  /** The saved mitigation an edit rewrites or archives, and the revision it was submitted with. */
  function Rewrites(e: Edit): Option<(nat, nat)> {
    match e
    case Save(Some(id), Some(revision), _) => Some((id, revision))
    case Archive(id, revision) => Some((id, revision))
    case _ => None
  }

  /** Of two edits of one saved mitigation submitted with the same revision, at most one goes through. */
  lemma OneSavePerRevision(d: Definitions, first: Edit, es: seq<Edit>, second: Edit)
    requires WellFormed(d) && Rewrites(first).Some? && Rewrites(second) == Rewrites(first) && Apply(d, first).reply.Done?
    ensures
      var now := Edits(Apply(d, first).d, es);
      Apply(now, second).reply.Refused? && Apply(now, second).d == now
  {
    var (id, revision) := Rewrites(first).value;
    DoneIff(d, first);
    EditWellFormed(d, first);
    PastOverRun(Apply(d, first).d, es, id, revision);
    DoneIff(Edits(Apply(d, first).d, es), second);
  }

  /** No step takes an action of the rule away with its router. */
  ghost predicate Spared(d: Definitions, es: seq<Edit>, id: nat)
    decreases |es|
  {
    es == [] || (!TakesAction(d, es[0], id) && Spared(Apply(d, es[0]).d, es[1..], id))
  }

  /** At an equal revision the later rule acts as the earlier one. */
  predicate SameAtRevision(r: Rule, r': Rule) {
    r'.revision >= r.revision && (r'.revision == r.revision ==> r'.actions == r.actions && r'.condition == r.condition)
  }

  lemma StepTells(d: Definitions, e: Edit, id: nat)
    requires WellFormed(d) && id in d.rules && id in Apply(d, e).d.rules && !TakesAction(d, e, id)
    ensures SameAtRevision(d.rules[id], Apply(d, e).d.rules[id])
  {
    RuleRevision(d, e, id);
  }

  lemma StaysFit(d: Definitions, es: seq<Edit>, id: nat)
    requires WellFormed(d) && id in d.rules && es != [] && id in Edits(d, es).rules
    ensures WellFormed(Apply(d, es[0]).d) && id in Apply(d, es[0]).d.rules
  {
    CountersGrow(d, es[0]);
    EditWellFormed(d, es[0]);
    StillThere(Apply(d, es[0]).d, es[1..], id);
  }

  lemma {:induction false} RevisionTells(d: Definitions, es: seq<Edit>, id: nat)
    requires WellFormed(d) && id in d.rules && id in Edits(d, es).rules && Spared(d, es, id)
    ensures SameAtRevision(d.rules[id], Edits(d, es).rules[id])
    decreases |es|
  {
    if es != [] {
      StaysFit(d, es, id);
      StepTells(d, es[0], id);
      RevisionTells(Apply(d, es[0]).d, es[1..], id);
    }
  }

  lemma {:induction false} StillThere(d: Definitions, es: seq<Edit>, id: nat)
    requires id < d.nextRule && id in Edits(d, es).rules
    ensures id in d.rules
    decreases |es|
  {
    if es != [] {
      CountersGrow(d, es[0]);
      StillThere(Apply(d, es[0]).d, es[1..], id);
      NoneReturns(d, es[0], id);
    }
  }

  /**
   No lost update: whatever happened since an editor loaded a rule, a replacement at the loaded revision goes through only
   over the actions and the condition that were loaded, unless a dropped router took an action with it.
   */
  lemma OverwritesOnlyWhatWasSeen(d: Definitions, es: seq<Edit>, e: Edit)
    requires WellFormed(d) && e.Replace? && e.id in d.rules && e.revision == d.rules[e.id].revision
    requires Spared(d, es, e.id) && Apply(Edits(d, es), e).reply.Done?
    ensures
      var now := Edits(d, es);
      e.id in now.rules && now.rules[e.id].actions == d.rules[e.id].actions && now.rules[e.id].condition == d.rules[e.id].condition
  {
    DoneIff(Edits(d, es), e);
    RevisionTells(d, es, e.id);
  }

  /** And an edit of a saved mitigation only over the row that was loaded. */
  lemma {:induction false} PresetTells(d: Definitions, es: seq<Edit>, id: nat)
    requires WellFormed(d) && id in d.presets
    ensures id in Edits(d, es).presets && Edits(d, es).presets[id].revision >= d.presets[id].revision
    ensures Edits(d, es).presets[id].revision == d.presets[id].revision ==> Edits(d, es).presets[id] == d.presets[id]
    decreases |es|
  {
    if es != [] {
      EditWellFormed(d, es[0]);
      PresetRevision(d, es[0], id);
      PresetTells(Apply(d, es[0]).d, es[1..], id);
    }
  }

  lemma RewritesOnlyWhatWasSeen(d: Definitions, es: seq<Edit>, e: Edit)
    requires WellFormed(d) && Rewrites(e).Some? && Rewrites(e).value.0 in d.presets
    requires Rewrites(e).value.1 == d.presets[Rewrites(e).value.0].revision && Apply(Edits(d, es), e).reply.Done?
    ensures
      var id := Rewrites(e).value.0;
      id in Edits(d, es).presets && Edits(d, es).presets[id] == d.presets[id]
  {
    DoneIff(Edits(d, es), e);
    PresetTells(d, es, Rewrites(e).value.0);
  }

  /** What an operator sets about a rule besides its actions and its arming. */
  datatype Settings = Settings(condition: int, enabled: bool, manualApply: bool)

  function SettingsOf(r: Rule): Settings { Settings(r.condition, r.enabled, r.manualApply) }

  /** The settings as last submitted by an update of the rule that went through, else as they were. */
  ghost function LastSubmitted(d: Definitions, es: seq<Edit>, id: nat, before: Settings): Settings
    decreases |es|
  {
    if es == [] then before
    else
      var now :=
        if es[0].Update? && es[0].id == id && Accepts(d, es[0]) then
          var b := es[0].body;
          Settings(if b.condition.Some? then b.condition.value else before.condition,
                   if b.enabled.Some? then b.enabled.value else before.enabled,
                   if b.manualApply.Some? then b.manualApply.value else before.manualApply)
        else before;
      LastSubmitted(Apply(d, es[0]).d, es[1..], id, now)
  }

  lemma SettingsMove(d: Definitions, e: Edit, id: nat)
    requires WellFormed(d) && id in d.rules && id in Apply(d, e).d.rules
    ensures !(e.Update? && e.id == id && Accepts(d, e)) ==> SettingsOf(Apply(d, e).d.rules[id]) == SettingsOf(d.rules[id])
  {
    if e.Update? { DoneIff(d, e); }
  }

  /** Over any run of edits a rule has the settings that were last submitted for it, whatever else was edited. */
  lemma {:induction false} SettingsStand(d: Definitions, es: seq<Edit>, id: nat)
    requires WellFormed(d) && id in d.rules && id in Edits(d, es).rules
    ensures SettingsOf(Edits(d, es).rules[id]) == LastSubmitted(d, es, id, SettingsOf(d.rules[id]))
    decreases |es|
  {
    if es != [] {
      var e, d' := es[0], Apply(d, es[0]).d;
      StaysFit(d, es, id);
      SettingsMove(d, e, id);
      if e.Update? && e.id == id && Accepts(d, e) {
        DoneIff(d, e);
        UpdateLeaves(d, e);
      }
      SettingsStand(d', es[1..], id);
    }
  }
}
