/**
 What the router checks are for, on one site: a rule with an action on router 1 and one on router 2 is read, router 1 is
 deleted, and then the rule is confirmed or run directly.
 */
module AdmissionExample {
  import opened Options
  import opened DefinitionTables
  import opened Sorting
  import Defs = DefinitionSafety
  import opened AdmissionTables
  import opened AdmissionRows
  import opened AdmissionSafety
  import opened AdmissionCurrent

  function Opened(): Site { Site(Defs.DiversionArmed().d, [], [], [], 0, [], multiset{}) }

  function Both(): seq<Action> { Defs.Diversion().actions }

  function Withdrawal(): seq<Action> { [Both()[1]] }

  function Read(user: nat): Reading { Reading(user, FromRule(0, 3, 7), [], Some(Both())) }

  lemma TwoListed(a: Action, b: Action)
    requires a.enabled && b.enabled && a.position <= b.position
    ensures Listed([a, b]) == [a, b] && Listed([b]) == [b]
  {
    assert [a] + [b] == [a, b] && [] + [a] == [a] && [] + [b] == [b];
    EnabledAppend([], a);
    EnabledAppend([], b);
    EnabledAppend([a], b);
    SortedStays([a, b], Position);
    SortedStays([b], Position);
  }

  lemma BothListed()
    ensures Listed(Both()) == Both() && Listed(Withdrawal()) == Withdrawal()
  {
    TwoListed(Both()[0], Both()[1]);
    assert Both() == [Both()[0], Both()[1]];
  }

  lemma OpenedStarts()
    ensures Start(Opened())
  {
    Defs.DiversionFits();
  }

  function Reads(user: nat): seq<Event> { [PreviewRule(user, 0), AdmissionTables.Read(0)] }

  lemma BothRead(user: nat)
    ensures After(Opened(), Reads(user)) == Opened().(readings := [Read(user)])
  {
    var s, es := Opened(), Reads(user);
    BothListed();
    var begun := Next(s, es[0]);
    assert begun.readings == [Reading(user, FromRule(0, 3, 7), [], None)];
    assert es[1..] == [es[1]] && es[1..][1..] == [];
    assert After(s, es) == After(begun, es[1..]) == Next(begun, es[1]);
  }

  lemma {:induction false} AfterConcat(s: Site, a: seq<Event>, b: seq<Event>)
    ensures After(s, a + b) == After(After(s, a), b)
    decreases |a|
  {
    if a == [] {
      assert a + b == b;
    } else {
      AfterConcat(Next(s, a[0]), a[1..], b);
      assert (a + b)[1..] == a[1..] + b;
    }
  }

  /** Router 1 may be deleted under a rule that was read. */
  lemma RouterRemovable(s: Site)
    requires s.d == Opened().d && s.bundles == []
    ensures Removable(s, FromRule(0, 3, 7), Both(), 1)
  {
    BothListed();
    assert Both()[0] in Both();
  }

  lemma OneLeft(s: Site)
    requires s.d == Opened().d && s.bundles == []
    ensures 0 in Dropped(s, 1).d.rules && Listed(Dropped(s, 1).d.rules[0].actions) == Withdrawal()
  {
    Defs.OnlyWithdrawal();
    BothListed();
  }

  lemma TwoSteps(s: Site, es: seq<Event>)
    requires |es| == 2
    ensures After(s, es) == Next(Next(s, es[0]), es[1])
  {
    assert es[1..] == [es[1]] && es[1..][1..] == [];
    assert After(s, es) == After(Next(s, es[0]), es[1..]);
  }

  /** The site once the rule was read. */
  function AfterReads(user: nat): Site { Opened().(readings := [Read(user)]) }

  lemma ReadSound(user: nat)
    ensures Sound(AfterReads(user))
  {
    OpenedStarts();
    FromStart(Opened(), Reads(user));
    BothRead(user);
  }

  function AfterDirect(user: nat, request: nat): Site { Next(Dropped(AfterReads(user), 1), Direct(0, request, true)) }

  lemma PublishedStale(user: nat, request: nat, more: seq<Event>)
    ensures
      var s := AfterDirect(user, request);
      && s.bundles == [DirectBundle(Read(user), request)] && s.d == Dropped(AfterReads(user), 1).d
      && |After(s, more).bundles| > 0 && After(s, more).bundles[0].phase != Prepared
  {
    var s := AfterReads(user);
    ReadSound(user);
    RouterRemovable(s);
    StaleDirectRun(s, 0, request, 1, more);
    DroppedFacts(s, FromRule(0, 3, 7), Both(), 1);
    DirectPublishes(Dropped(s, 1), 0, request);
  }

  /** The run is published with both actions although the rule has one left, and in no continuation is it prepared. */
  lemma StaleDirectExample(user: nat, request: nat, more: seq<Event>)
    ensures
      var s := After(Opened(), Reads(user) + [Edits(DropDevice(1, false)), Direct(0, request, true)]);
      && Start(Opened()) && s.bundles == [DirectBundle(Read(user), request)]
      && 0 in s.d.rules && Listed(s.d.rules[0].actions) == Withdrawal()
      && |After(s, more).bundles| > 0 && After(s, more).bundles[0].phase != Prepared
  {
    var last := [Edits(DropDevice(1, false)), Direct(0, request, true)];
    OpenedStarts();
    AfterConcat(Opened(), Reads(user), last);
    BothRead(user);
    TwoSteps(AfterReads(user), last);
    PublishedStale(user, request, more);
    OneLeft(AfterReads(user));
  }

  function StoredPlan(user: nat, token: nat): Plan {
    Plan(user, token, FromRule(0, 3, 7), [], Both(), PREVIEW_SECONDS, false, None)
  }

  lemma StoredOnce(user: nat, token: nat)
    ensures Next(AfterReads(user), Store(0, token)) == AfterReads(user).(plans := [StoredPlan(user, token)])
  {
    assert Both() != [] && Enrolled(AfterReads(user).d, Both());
  }

  lemma OnlyPlanRefused(s: Site, p: Plan, router: nat)
    requires Good(s) && s.plans == [p] && s.bundles == [] && !p.consumed && s.clock < p.expires
    requires Removable(s, p.source, p.read, router)
    ensures Dropped(s, router).plans == [p] && SourceCurrent(Dropped(s, router).d, p.source)
    ensures
      var c := AcceptPlan(Dropped(s, router), 0, p.user, p.token, ScopeOf(p.source), true, Admits);
      && c.outcome == NotAdmitted(0) && c.s.plans == [p.(consumed := true, bundle := Some(0))]
      && c.s.bundles == [NewBundle(p, 0).(planned := false)]
  {
    DroppedFacts(s, p.source, p.read, router);
    RemovalRefusesConfirmation(s, 0, router, Admits);
    assert [p][0 := p.(consumed := true, bundle := Some(0))] == [p.(consumed := true, bundle := Some(0))];
  }

  lemma RefusedOnce(user: nat, token: nat)
    ensures
      var p := StoredPlan(user, token);
      var s := Dropped(AfterReads(user).(plans := [p]), 1);
      var c := AcceptPlan(s, 0, user, token, RuleApply(0), true, Admits);
      && s.plans == [p] && SourceCurrent(s.d, p.source)
      && c.outcome == NotAdmitted(0) && c.s.plans == [p.(consumed := true, bundle := Some(0))]
      && c.s.bundles == [NewBundle(p, 0).(planned := false)]
  {
    var s := AfterReads(user).(plans := [StoredPlan(user, token)]);
    ReadSound(user);
    StoredOnce(user, token);
    StepKeeps(AfterReads(user), Store(0, token));
    RouterRemovable(s);
    OnlyPlanRefused(s, StoredPlan(user, token), 1);
  }

  /** The confirmation uses up the plan and creates a run, and refuses it. */
  lemma RefusedConfirmationExample(user: nat, token: nat)
    ensures
      var p := StoredPlan(user, token);
      var s := After(Opened(), Reads(user) + [Store(0, token), Edits(DropDevice(1, false))]);
      var c := AcceptPlan(s, 0, user, token, RuleApply(0), true, Admits);
      && Start(Opened()) && s.plans == [p] && SourceCurrent(s.d, p.source)
      && c.outcome == NotAdmitted(0) && c.s.plans == [p.(consumed := true, bundle := Some(0))]
      && c.s.bundles == [NewBundle(p, 0).(planned := false)]
  {
    var last := [Store(0, token), Edits(DropDevice(1, false))];
    OpenedStarts();
    AfterConcat(Opened(), Reads(user), last);
    BothRead(user);
    TwoSteps(AfterReads(user), last);
    StoredOnce(user, token);
    RefusedOnce(user, token);
  }
}
