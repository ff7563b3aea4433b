/** What every edit of a definition keeps: revisions, arming and execution order. */
module DefinitionSafety {
  import opened Options
  import opened Ranking
  import opened Sorting
  import opened DefinitionTables

  // ---- what each edit may change ----

  /** A router removal that takes an action of this rule with it, but leaves the rule. */
  predicate TakesAction(d: Definitions, e: Edit, id: nat) {
    && e.DropDevice? && Apply(d, e).reply.Done?
    && id in d.rules && d.rules[id].device != Some(e.router)
    && exists a | a in d.rules[id].actions :: a.device == e.router
  }

  lemma {:induction false} OffDeviceKeeps(actions: seq<Action>, device: nat)
    ensures (forall a | a in actions :: a.device != device) ==> OffDevice(actions, device) == actions
    ensures forall a | a in OffDevice(actions, device) :: a in actions && a.device != device
    ensures |OffDevice(actions, device)| <= |actions|
  {
    if actions != [] {
      var front := actions[..|actions| - 1];
      OffDeviceKeeps(front, device);
      assert actions == front + [actions[|actions| - 1]];
    }
  }

  lemma UntouchedByDrop(d: Definitions, e: Edit, id: nat)
    requires e.DropDevice? && id in d.rules && id in Apply(d, e).d.rules && !TakesAction(d, e, id)
    ensures Apply(d, e).d.rules[id] == d.rules[id]
  {
    OffDeviceKeeps(d.rules[id].actions, e.router);
  }

  /**
   Revisions never fall, and a committed change to the actions, their order or the condition of a rule raises
   its revision and leaves it disarmed, unless the change is a router removal taking an action of the rule.
   */
  lemma RuleRevision(d: Definitions, e: Edit, id: nat)
    requires WellFormed(d) && id in d.rules && id in Apply(d, e).d.rules
    ensures Apply(d, e).d.rules[id].revision >= d.rules[id].revision
    ensures
      var before, after := d.rules[id], Apply(d, e).d.rules[id];
      (before.actions != after.actions || before.condition != after.condition) && !TakesAction(d, e, id) ==>
        after.revision > before.revision && !after.armed
  {
    if e.DropDevice? && !TakesAction(d, e, id) {
      UntouchedByDrop(d, e, id);
    }
  }

  /** The exception is real: it changes the actions under an unchanged revision and leaves an armed rule armed. */
  lemma TakenSilently(d: Definitions, e: Edit, id: nat)
    requires TakesAction(d, e, id)
    ensures id in Apply(d, e).d.rules
    ensures
      var before, after := d.rules[id], Apply(d, e).d.rules[id];
      after.actions != before.actions && after.revision == before.revision && after.armed == before.armed
  {
    OffDeviceKeeps(d.rules[id].actions, e.router);
    var a :| a in d.rules[id].actions && a.device == e.router;
    assert a !in OffDevice(d.rules[id].actions, e.router);
  }

  /** Exactly when a step that leaves a rule in place breaks the revision rule. */
  lemma RevisionHoldsIff(d: Definitions, e: Edit, id: nat)
    requires WellFormed(d) && id in d.rules && id in Apply(d, e).d.rules
    ensures
      var before, after := d.rules[id], Apply(d, e).d.rules[id];
      ((before.actions != after.actions || before.condition != after.condition) ==> after.revision > before.revision)
      <==> !TakesAction(d, e, id)
  {
    if TakesAction(d, e, id) {
      TakenSilently(d, e, id);
    } else {
      RuleRevision(d, e, id);
    }
  }

  /** Saved mitigations have no exception: no edit changes or archives one without raising its revision, and none removes it. */
  lemma PresetRevision(d: Definitions, e: Edit, id: nat)
    requires WellFormed(d) && id in d.presets
    ensures id in Apply(d, e).d.presets
    ensures Apply(d, e).d.presets[id].revision >= d.presets[id].revision
    ensures Apply(d, e).d.presets[id] != d.presets[id] ==> Apply(d, e).d.presets[id].revision > d.presets[id].revision
  {
  }

  // ---- ids are never reused ----

  ghost predicate WellFormed(d: Definitions) {
    && (forall id | id in d.rules :: id < d.nextRule)
    && (forall id | id in d.presets :: id < d.nextPreset)
    && (forall id | id in d.rules :: RowsFit(d, d.rules[id].actions))
    && (forall id | id in d.presets :: RowsFit(d, d.presets[id].actions))
    && (forall x | x in d.devices :: x < d.nextDevice)
  }

  /** An id already handed out, a known template and an enrolled router. */
  predicate RowFits(d: Definitions, a: Action) {
    a.id < d.nextAction && a.template in d.templates && a.device in d.devices
  }

  ghost predicate RowsFit(d: Definitions, actions: seq<Action>) {
    DistinctIds(actions) && forall k | 0 <= k < |actions| :: RowFits(d, actions[k])
  }

  ghost predicate DistinctIds(actions: seq<Action>) {
    forall j, k | 0 <= j < k < |actions| :: actions[j].id != actions[k].id
  }

  lemma AppendFits(d: Definitions, rest: seq<Action>, last: Action)
    requires RowsFit(d, rest) && RowFits(d, last)
    requires forall a | a in rest :: a.id != last.id
    ensures RowsFit(d, rest + [last])
  {
    assert forall k | 0 <= k < |rest| :: rest[k] in rest;
  }

  lemma LastFits(d: Definitions, actions: seq<Action>)
    requires RowsFit(d, actions) && actions != []
    ensures
      var front, last := actions[..|actions| - 1], actions[|actions| - 1];
      && RowsFit(d, front) && RowFits(d, last)
      && actions == front + [last] && forall a | a in front :: a.id != last.id
  {
  }

  lemma {:induction false} WithoutFits(d: Definitions, actions: seq<Action>, id: nat)
    requires RowsFit(d, actions)
    ensures RowsFit(d, Without(actions, id))
    ensures forall a | a in Without(actions, id) :: a in actions
  {
    if actions != [] {
      LastFits(d, actions);
      var front, last := actions[..|actions| - 1], actions[|actions| - 1];
      WithoutFits(d, front, id);
      AppendFits(d, Without(front, id), last);
    }
  }

  lemma {:induction false} OffDeviceFits(d: Definitions, actions: seq<Action>, device: nat)
    requires RowsFit(d, actions)
    ensures RowsFit(d, OffDevice(actions, device))
    ensures forall a | a in OffDevice(actions, device) :: a in actions && a.device != device
  {
    if actions != [] {
      LastFits(d, actions);
      var front, last := actions[..|actions| - 1], actions[|actions| - 1];
      OffDeviceFits(d, front, device);
      AppendFits(d, OffDevice(front, device), last);
    }
  }

  lemma {:induction false} RenumberedRows(actions: seq<Action>, order: seq<nat>)
    ensures forall k | 0 <= k < |actions| ::
      Renumbered(actions, order)[k] == actions[k].(position := Renumbered(actions, order)[k].position)
  {
    if order != [] {
      RenumberedRows(actions, order[..|order| - 1]);
    }
  }

  lemma FitGrows(d: Definitions, d': Definitions, actions: seq<Action>)
    requires RowsFit(d, actions) && d'.nextAction >= d.nextAction && d'.templates == d.templates
    requires d.devices <= d'.devices || forall k | 0 <= k < |actions| :: actions[k].device in d'.devices
    ensures RowsFit(d', actions)
  {
  }

  /** No step hands out an id twice, so the next ones only grow. */
  lemma CountersGrow(d: Definitions, e: Edit)
    ensures
      var d' := Apply(d, e).d;
      && d'.nextRule >= d.nextRule && d'.nextPreset >= d.nextPreset && d'.nextAction >= d.nextAction
      && d'.nextDevice >= d.nextDevice && d'.templates == d.templates
      && (!e.DropDevice? ==> d.devices <= d'.devices)
      && (forall x | x in d'.devices :: x in d.devices || x >= d.nextDevice)
  {
  }

  predicate RewritesActions(e: Edit) {
    e.Add? || e.Detach? || e.Replace? || e.Reorder? || e.DropDevice?
  }

  lemma ActionsStay(d: Definitions, e: Edit, id: nat)
    requires WellFormed(d) && !RewritesActions(e) && id in Apply(d, e).d.rules
    ensures Apply(d, e).d.rules[id].actions == if id in d.rules then d.rules[id].actions else []
  {
  }

  lemma NewRowsFit(d: Definitions, drafts: seq<Draft>, next: nat)
    requires d.nextAction == next + |drafts| && forall a | a in drafts :: a.template in d.templates && a.device in d.devices
    ensures RowsFit(d, Rows(drafts, next))
  {
    forall k | 0 <= k < |drafts| ensures drafts[k].template in d.templates && drafts[k].device in d.devices {
      assert drafts[k] in drafts;
    }
  }

  lemma AddedFit(d: Definitions, e: Edit, id: nat)
    requires WellFormed(d) && (e.Add? || e.Replace?) && id in Apply(d, e).d.rules
    ensures RowsFit(Apply(d, e).d, Apply(d, e).d.rules[id].actions)
  {
    var d', actions := Apply(d, e).d, d.rules[id].actions;
    if d'.rules[id].actions != actions {
      if e.Replace? {
        assert d'.rules[id].actions == Rows(e.drafts, d.nextAction);
        NewRowsFit(d', e.drafts, d.nextAction);
      } else {
        assert d'.rules[id].actions == actions + [RowOf(d.nextAction, e.draft, e.position).(enabled := true)];
      }
    }
  }

  /** What the edits that rewrite existing rows leave of them. */
  function Rewritten(e: Edit, actions: seq<Action>): seq<Action>
    requires e.Detach? || e.Reorder?
  {
    if e.Detach? then Without(actions, e.action) else Renumbered(actions, e.order)
  }

  lemma RewriteFits(d: Definitions, e: Edit, actions: seq<Action>)
    requires RowsFit(d, actions) && (e.Detach? || e.Reorder?)
    ensures RowsFit(d, Rewritten(e, actions))
  {
    if e.Detach? {
      WithoutFits(d, actions, e.action);
    } else {
      RenumberedRows(actions, e.order);
    }
  }

  /** A dropped router takes its rows along, so the rows that stay are on routers that stay. */
  lemma DroppedFit(d: Definitions, e: Edit, id: nat)
    requires WellFormed(d) && e.DropDevice? && id in Apply(d, e).d.rules
    ensures RowsFit(Apply(d, e).d, Apply(d, e).d.rules[id].actions)
  {
    if Apply(d, e).reply.Done? {
      OffDeviceFits(d, d.rules[id].actions, e.router);
      var kept := OffDevice(d.rules[id].actions, e.router);
      forall k | 0 <= k < |kept| ensures kept[k].device in Apply(d, e).d.devices {
        assert kept[k] in kept;
      }
      FitGrows(d, Apply(d, e).d, kept);
    }
  }

  lemma RewrittenFit(d: Definitions, e: Edit, id: nat)
    requires WellFormed(d) && (e.Detach? || e.Reorder?) && id in Apply(d, e).d.rules
    ensures RowsFit(Apply(d, e).d, Apply(d, e).d.rules[id].actions)
  {
    var d', actions := Apply(d, e).d, d.rules[id].actions;
    RewriteFits(d, e, actions);
    assert d'.rules[id].actions == actions || d'.rules[id].actions == Rewritten(e, actions);
    FitGrows(d, d', d'.rules[id].actions);
  }

  lemma PresetRowsFit(d: Definitions, e: Edit, id: nat)
    requires WellFormed(d) && id in Apply(d, e).d.presets
    ensures RowsFit(Apply(d, e).d, Apply(d, e).d.presets[id].actions)
  {
    var d' := Apply(d, e).d;
    CountersGrow(d, e);
    if id in d.presets && d'.presets[id].actions == d.presets[id].actions {
      FitGrows(d, d', d.presets[id].actions);
    } else {
      assert e.Save? && d'.presets[id].actions == Rows(e.drafts, d.nextAction);
      NewRowsFit(d', e.drafts, d.nextAction);
    }
  }

  lemma RuleRowsFit(d: Definitions, e: Edit, id: nat)
    requires WellFormed(d) && id in Apply(d, e).d.rules
    ensures RowsFit(Apply(d, e).d, Apply(d, e).d.rules[id].actions)
  {
    if e.Add? || e.Replace? {
      AddedFit(d, e, id);
    } else if e.DropDevice? {
      DroppedFit(d, e, id);
    } else if RewritesActions(e) {
      RewrittenFit(d, e, id);
    } else {
      CountersGrow(d, e);
      ActionsStay(d, e, id);
      if id in d.rules { FitGrows(d, Apply(d, e).d, d.rules[id].actions); }
    }
  }

  lemma EditWellFormed(d: Definitions, e: Edit)
    requires WellFormed(d)
    ensures WellFormed(Apply(d, e).d) && Apply(d, e).d.templates == d.templates
  {
    var d' := Apply(d, e).d;
    CountersGrow(d, e);
    forall id | id in d'.rules ensures id < d'.nextRule && RowsFit(d', d'.rules[id].actions) {
      RuleRowsFit(d, e, id);
    }
    forall id | id in d'.presets ensures id < d'.nextPreset && RowsFit(d', d'.presets[id].actions) {
      PresetRowsFit(d, e, id);
    }
  }

  // ---- arming ----

  datatype Reviewed = Reviewed(actions: seq<Action>, condition: int)

  /** The definitions, and what each rule looked like when automatic execution was last switched on. */
  datatype History = History(d: Definitions, reviewed: map<nat, Reviewed>)

  /** The rule a successful edit explicitly arms. */
  function Arms(d: Definitions, e: Edit): Option<nat> {
    if Apply(d, e).reply.Refused? then None
    else
      match e
      case Create(_, arm, _, _, _) => if arm then Some(d.nextRule) else None
      case Update(id, body) => if body.arm == Some(true) && body.condition.None? then Some(id) else None
      case _ => None
  }

  function Definition(r: Rule): Reviewed { Reviewed(r.actions, r.condition) }

  function Next(h: History, e: Edit): History {
    var d' := Apply(h.d, e).d;
    var armed := Arms(h.d, e);
    History(d', if armed.Some? && armed.value in d'.rules then h.reviewed[armed.value := Definition(d'.rules[armed.value])] else h.reviewed)
  }

  ghost predicate ActionsAllowed(d: Definitions, r: Rule) {
    forall k | 0 <= k < |r.actions| && r.actions[k].enabled :: Automatic(d.templates, r.actions[k].template)
  }

  /** An armed rule is exactly what was reviewed, and every action it would run may run automatically. */
  ghost predicate ArmedAsReviewed(h: History) {
    forall id | id in h.d.rules && h.d.rules[id].armed ::
      && id in h.reviewed && h.reviewed[id] == Definition(h.d.rules[id])
      && ActionsAllowed(h.d, h.d.rules[id])
  }

  /** A router removal that takes an action away from a rule while it is armed. */
  predicate TakesArmedAction(d: Definitions, e: Edit) {
    exists id | id in d.rules :: d.rules[id].armed && TakesAction(d, e, id)
  }

  lemma ArmingIsGuarded(d: Definitions, e: Edit, id: nat)
    requires WellFormed(d) && Arms(d, e) == Some(id)
    ensures id in Apply(d, e).d.rules && ActionsAllowed(Apply(d, e).d, Apply(d, e).d.rules[id])
  {
    var r := Apply(d, e).d.rules[id];
    if e.Update? {
      assert r.actions == d.rules[id].actions;
      forall k | 0 <= k < |r.actions| && r.actions[k].enabled ensures Automatic(d.templates, r.actions[k].template) {
        assert r.actions[k] in d.rules[id].actions;
      }
    }
  }

  lemma StaysArmed(d: Definitions, e: Edit, id: nat)
    requires WellFormed(d) && id in Apply(d, e).d.rules && Apply(d, e).d.rules[id].armed && Arms(d, e) != Some(id)
    requires !TakesAction(d, e, id)
    ensures id in d.rules && d.rules[id].armed && Definition(Apply(d, e).d.rules[id]) == Definition(d.rules[id])
  {
    if id in d.rules {
      RuleRevision(d, e, id);
    }
  }

  /** Exactly when one step breaks the invariant. */
  lemma ArmedStepIff(h: History, e: Edit)
    requires WellFormed(h.d) && ArmedAsReviewed(h)
    ensures ArmedAsReviewed(Next(h, e)) <==> !TakesArmedAction(h.d, e)
  {
    var h' := Next(h, e);
    CountersGrow(h.d, e);
    if TakesArmedAction(h.d, e) {
      var id :| id in h.d.rules && h.d.rules[id].armed && TakesAction(h.d, e, id);
      TakenSilently(h.d, e, id);
      assert !ArmedAsReviewed(h');
    } else {
      forall id | id in h'.d.rules && h'.d.rules[id].armed
        ensures id in h'.reviewed && h'.reviewed[id] == Definition(h'.d.rules[id]) && ActionsAllowed(h'.d, h'.d.rules[id])
      {
        if Arms(h.d, e) == Some(id) {
          ArmingIsGuarded(h.d, e, id);
        } else {
          if TakesAction(h.d, e, id) { TakenSilently(h.d, e, id); }
          StaysArmed(h.d, e, id);
        }
      }
    }
  }

  ghost function After(h: History, es: seq<Edit>): History
    decreases |es|
  {
    if es == [] then h else After(Next(h, es[0]), es[1..])
  }

  /** No step of the run removes a router that a surviving armed rule acts on. */
  ghost predicate NoneTaken(h: History, es: seq<Edit>)
    decreases |es|
  {
    es == [] || (!TakesArmedAction(h.d, es[0]) && NoneTaken(Next(h, es[0]), es[1..]))
  }

  /**
   Over any run of edits, drift audits, state changes and router removals that take no action away from an armed rule, a rule
   with automatic execution on has exactly the actions, order and condition it had when it was last armed, and
   the template of every enabled action is enabled and allowed to run automatically.
   */
  lemma {:induction false} ArmedInvariant(h: History, es: seq<Edit>)
    requires WellFormed(h.d) && ArmedAsReviewed(h) && NoneTaken(h, es)
    ensures WellFormed(After(h, es).d) && ArmedAsReviewed(After(h, es))
    decreases |es|
  {
    if es == [] {
    } else {
      EditWellFormed(h.d, es[0]);
      ArmedStepIff(h, es[0]);
      ArmedInvariant(Next(h, es[0]), es[1..]);
    }
  }

  /** A rule with an additive action on router 1 and a withdrawal on router 2. */
  function Diversion(): Rule {
    Rule([Action(0, 0, 1, 0, 0, true, false), Action(1, 0, 2, 0, 1, true, false)], 7, 3, true, true, true, Clear, {}, None)
  }

  function DiversionArmed(): History {
    History(
      Definitions(map[0 := Diversion()], map[], map[0 := Template(true, true)], {1, 2}, 1, 0, 2, 3),
      map[0 := Definition(Diversion())])
  }

  lemma DiversionFits()
    ensures WellFormed(DiversionArmed().d) && ArmedAsReviewed(DiversionArmed())
  {
    assert RowsFit(DiversionArmed().d, Diversion().actions);
  }

  lemma OnlyWithdrawal()
    ensures OffDevice(Diversion().actions, 1) == [Diversion().actions[1]]
  {
    var actions := Diversion().actions;
    assert actions[..1] == [actions[0]] && [actions[0]][..0] == [];
    assert OffDevice([actions[0]], 1) == [];
  }

  /** Removing a router without history under an armed rule leaves it armed, at the same revision, one action short. */
  lemma RemovalShortensArmedRule()
    ensures
      var h, e := DiversionArmed(), DropDevice(1, false);
      && WellFormed(h.d) && ArmedAsReviewed(h) && !ArmedAsReviewed(Next(h, e))
      && 0 in Next(h, e).d.rules
      && Next(h, e).d.rules[0] == h.d.rules[0].(actions := [h.d.rules[0].actions[1]])
  {
    DiversionFits();
    OnlyWithdrawal();
    assert Diversion().actions[0] in Diversion().actions;
    assert TakesAction(DiversionArmed().d, DropDevice(1, false), 0);
    ArmedStepIff(DiversionArmed(), DropDevice(1, false));
  }

  // ---- execution order ----

  lemma {:induction false} RenumberedPosition(actions: seq<Action>, order: seq<nat>, k: nat, j: nat)
    requires k < |actions| && j < |order| && order[j] == actions[k].id
    requires forall i | j < i < |order| :: order[i] != order[j]
    ensures Renumbered(actions, order)[k].position == j
  {
    var front := order[..|order| - 1];
    RenumberedRows(actions, front);
    if j < |order| - 1 {
      assert front[j] == order[j];
      RenumberedPosition(actions, front, k, j);
    }
  }

  /** n ascending distinct numbers below n are 0, 1, 2, ... */
  lemma {:induction false} FillsRange(v: seq<int>, k: nat)
    requires forall i, j | 0 <= i < j < |v| :: v[i] < v[j]
    requires forall i | 0 <= i < |v| :: 0 <= v[i] < |v|
    requires k < |v|
    ensures v[k] == k
  {
    AtLeastIndex(v, k);
    AtMostIndex(v, k);
  }

  lemma {:induction false} AtLeastIndex(v: seq<int>, k: nat)
    requires (forall i, j | 0 <= i < j < |v| :: v[i] < v[j]) && (forall i | 0 <= i < |v| :: 0 <= v[i]) && k < |v|
    ensures v[k] >= k
  {
    if k > 0 {
      AtLeastIndex(v, k - 1);
    }
  }

  lemma {:induction false} AtMostIndex(v: seq<int>, k: nat)
    requires (forall i, j | 0 <= i < j < |v| :: v[i] < v[j]) && (forall i | 0 <= i < |v| :: v[i] < |v|) && k < |v|
    ensures v[k] <= k
    decreases |v| - k
  {
    if k < |v| - 1 {
      AtMostIndex(v, k + 1);
    }
  }

  lemma {:induction false} NoTwice<T>(s: seq<T>, i: nat, j: nat)
    requires i < j < |s|
    ensures s[i] == s[j] ==> multiset(s)[s[i]] >= 2
  {
    assert s == s[..i + 1] + s[i + 1..];
    assert s[..i + 1][i] == s[i] && s[i + 1..][j - i - 1] == s[j];
    assert s[i] in multiset(s[..i + 1]) && s[j] in multiset(s[i + 1..]);
  }

  lemma {:induction false} OnlyOnce<T>(s: seq<T>, x: T)
    requires forall i, j | 0 <= i < j < |s| :: s[i] != s[j]
    ensures multiset(s)[x] <= 1
  {
    if s != [] {
      var front, last := s[..|s| - 1], s[|s| - 1];
      assert s == front + [last];
      OnlyOnce(front, x);
      assert last !in front;
    }
  }

  lemma DifferentPositions(rows: seq<Action>, s: seq<Action>, i: nat, j: nat)
    requires forall i, j | 0 <= i < j < |rows| :: rows[i].position != rows[j].position
    requires multiset(s) == multiset(rows) && i < j < |s|
    ensures s[i].position != s[j].position
  {
    NoTwice(s, i, j);
    OnlyOnce(rows, s[i]);
    assert s[i] in multiset(rows) && s[j] in multiset(rows);
    var k :| 0 <= k < |rows| && rows[k] == s[i];
    var l :| 0 <= l < |rows| && rows[l] == s[j];
  }

  /** Sorting rows whose positions are all different puts them in strictly ascending order. */
  lemma StrictlySorted(rows: seq<Action>)
    requires forall i, j | 0 <= i < j < |rows| :: rows[i].position != rows[j].position
    ensures
      var s := ListedAll(rows);
      |s| == |rows| && (forall i, j | 0 <= i < j < |s| :: s[i].position < s[j].position) && forall a | a in s :: a in rows
  {
    var s := ListedAll(rows);
    SortedFacts(rows, Position);
    SortedMembers(rows, Position);
    forall i, j | 0 <= i < j < |s| ensures s[i].position < s[j].position {
      assert Position(s[i]) <= Position(s[j]);
      DifferentPositions(rows, s, i, j);
    }
  }

  lemma {:induction false} SetNoLarger(s: seq<nat>)
    ensures |AsSet(s)| <= |s|
  {
    if s == [] {
      assert AsSet(s) == {};
    } else {
      SetNoLarger(s[..|s| - 1]);
      assert AsSet(s) == AsSet(s[..|s| - 1]) + {s[|s| - 1]};
    }
  }

  lemma RepeatShrinks(s: seq<nat>, i: nat, j: nat)
    requires i < j < |s| && s[i] == s[j]
    ensures !NoRepeats(s)
  {
    var t := s[..j] + s[j + 1..];
    assert forall k | 0 <= k < |s| :: s[k] == if k < j then t[k] else if k == j then t[i] else t[k - 1];
    assert AsSet(s) == AsSet(t);
    SetNoLarger(t);
  }

  lemma NoRepeatsIsDistinct(s: seq<nat>)
    requires NoRepeats(s)
    ensures Distinct(s)
  {
    forall i, j | 0 <= i < j < |s| ensures s[i] != s[j] {
      if s[i] == s[j] { RepeatShrinks(s, i, j); }
    }
  }

  /** Every row finds its place in a submitted order that names exactly the rows. */
  lemma PlaceOf(actions: seq<Action>, order: seq<nat>, k: nat) returns (j: nat)
    requires DistinctIds(actions) && Distinct(order) && AsSet(order) == AsSet(Ids(actions)) && k < |actions|
    ensures j < |order| && order[j] == actions[k].id && Renumbered(actions, order)[k].position == j
  {
    assert Ids(actions)[k] == actions[k].id;
    assert actions[k].id in AsSet(order);
    j :| 0 <= j < |order| && order[j] == actions[k].id;
    RenumberedPosition(actions, order, k, j);
  }

  lemma PositionsDiffer(actions: seq<Action>, order: seq<nat>, rows: seq<Action>)
    requires DistinctIds(actions) && Distinct(order) && AsSet(order) == AsSet(Ids(actions))
    requires rows == Renumbered(actions, order)
    ensures |order| == |actions|
    ensures forall i, j | 0 <= i < j < |rows| :: rows[i].position != rows[j].position
    ensures forall k | 0 <= k < |rows| :: rows[k].position < |order| && order[rows[k].position] == rows[k].id
  {
    RenumberedRows(actions, order);
    DistinctSize(order);
    DistinctSize(Ids(actions));
    forall i, j | 0 <= i < j < |rows| ensures rows[i].position != rows[j].position {
      var p := PlaceOf(actions, order, i);
      var q := PlaceOf(actions, order, j);
    }
    forall k | 0 <= k < |rows| ensures rows[k].position < |order| && order[rows[k].position] == rows[k].id {
      var p := PlaceOf(actions, order, k);
    }
  }

  /** Renumbering in place gives exactly the submitted order, and neither loses nor changes an action. */
  lemma ReorderIsExact(d: Definitions, id: nat, order: seq<nat>, busy: bool)
    requires WellFormed(d) && ReorderActions(d, id, order, busy).reply.Done?
    ensures
      var before, after := d.rules[id].actions, ReorderActions(d, id, order, busy).d.rules[id].actions;
      && Ids(ListedAll(after)) == order
      && |after| == |before| && forall k | 0 <= k < |before| :: after[k] == before[k].(position := after[k].position)
  {
    var before := d.rules[id].actions;
    var after := Renumbered(before, order);
    NoRepeatsIsDistinct(order);
    assert RowsFit(d, before);
    RenumberedRows(before, order);
    PositionsDiffer(before, order, after);
    StrictlySorted(after);
    OrderFollows(ListedAll(after), after, order);
  }

  lemma OrderFollows(s: seq<Action>, rows: seq<Action>, order: seq<nat>)
    requires |s| == |rows| == |order| && (forall a | a in s :: a in rows)
    requires forall i, j | 0 <= i < j < |s| :: s[i].position < s[j].position
    requires forall k | 0 <= k < |rows| :: rows[k].position < |order| && order[rows[k].position] == rows[k].id
    ensures Ids(s) == order
  {
    var v := seq(|s|, k requires 0 <= k < |s| => s[k].position as int);
    forall k | 0 <= k < |s| ensures v[k] < |v| && order[v[k]] == s[k].id {
      assert s[k] in rows;
    }
    forall k | 0 <= k < |s| ensures Ids(s)[k] == order[k] {
      FillsRange(v, k);
    }
  }

  /** The drafts of rows, in listing order. */
  function Bodies(actions: seq<Action>): seq<Draft> {
    seq(|actions|, k requires 0 <= k < |actions| =>
      Draft(actions[k].template, actions[k].device, actions[k].params, actions[k].enabled, actions[k].autoTarget))
  }

  lemma RowsStay(drafts: seq<Draft>, next: nat)
    ensures ListedAll(Rows(drafts, next)) == Rows(drafts, next)
  {
    var rows := Rows(drafts, next);
    assert forall k | 0 <= k < |rows| :: Position(rows[k]) == k;
    SortedStays(rows, Position);
  }

  lemma RowsInOrder(drafts: seq<Draft>, next: nat)
    ensures Bodies(ListedAll(Rows(drafts, next))) == drafts
  {
    RowsStay(drafts, next);
    BodiesKept(drafts, next);
  }

  lemma BodiesKept(drafts: seq<Draft>, next: nat)
    ensures Bodies(Rows(drafts, next)) == drafts
  {
    forall k | 0 <= k < |drafts| ensures Bodies(Rows(drafts, next))[k] == drafts[k] {
      assert Rows(drafts, next)[k] == RowOf(next + k, drafts[k], k);
    }
  }

  /** The rows a successful replacement or save leaves behind. */
  function Submitted(d: Definitions, e: Edit): seq<Action>
    requires (e.Replace? || e.Save?) && Apply(d, e).reply.Done?
  {
    if e.Replace? then Apply(d, e).d.rules[e.id].actions else Apply(d, e).d.presets[Apply(d, e).reply.id].actions
  }

  lemma SubmittedRows(d: Definitions, e: Edit)
    requires (e.Replace? || e.Save?) && Apply(d, e).reply.Done?
    ensures Submitted(d, e) == Rows(e.drafts, d.nextAction)
  {
  }

  /** A replaced action set, or a saved mitigation, is listed exactly as it was submitted: nothing lost, same order. */
  lemma SavedAsSubmitted(d: Definitions, e: Edit)
    requires (e.Replace? || e.Save?) && Apply(d, e).reply.Done?
    ensures Bodies(ListedAll(Submitted(d, e))) == e.drafts
  {
    SubmittedRows(d, e);
    RowsInOrder(e.drafts, d.nextAction);
  }

  // ---- incidents ----

  predicate Incident(r: Rule) { r.activity == Firing || r.activity == AwaitingRevert }

  /**
   While a rule fires or waits for its rollback no editor can delete or disable it, change its actions, order or
   condition, or end the incident; only the engine moves it on, and only a router removal can take it or its actions.
   */
  lemma IncidentFreezes(d: Definitions, e: Edit, id: nat)
    requires WellFormed(d) && id in d.rules && Incident(d.rules[id]) && !e.Observe? && !e.DropDevice?
    ensures id in Apply(d, e).d.rules
    ensures
      var before, after := d.rules[id], Apply(d, e).d.rules[id];
      && after.actions == before.actions && after.condition == before.condition && after.revision == before.revision
      && after.activity == before.activity && (before.enabled ==> after.enabled)
  {
    if RewritesActions(e) {
      ActionEditsRefused(d, e, id);
    }
  }

  lemma ActionEditsRefused(d: Definitions, e: Edit, id: nat)
    requires id in d.rules && Incident(d.rules[id]) && RewritesActions(e) && !e.DropDevice?
    ensures id in Apply(d, e).d.rules && Apply(d, e).d.rules[id] == d.rules[id]
  {
  }
}
