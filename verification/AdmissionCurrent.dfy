/** A run acts on current rows: what the revision check, the router check and the action ledger give together. */
module AdmissionCurrent {
  import opened Options
  import opened DefinitionTables
  import opened Sorting
  import Defs = DefinitionSafety
  import opened AdmissionTables
  import opened AdmissionRows
  import opened AdmissionSafety

  // ---- what was read, while its revision is current ----

  ghost predicate Known(d: Definitions, actions: seq<Action>) {
    forall a | a in actions :: a.device < d.nextDevice
  }

  /**
   The recorded revision is not ahead of the current one. While it is the current one, a rule lists what was read
   minus the actions whose router is gone, and a saved mitigation lists exactly what was read.
   */
  ghost predicate Tracks(d: Definitions, source: Source, read: Option<seq<Action>>) {
    && (read.Some? ==> Known(d, read.value) && (source.RunOnce? ==> read.value == []))
    && match source
       case FromRule(rule, revision, condition) =>
         && rule < d.nextRule
         && (rule in d.rules ==> d.rules[rule].revision >= revision)
         && (rule in d.rules && d.rules[rule].revision == revision ==>
               && d.rules[rule].condition == condition
               && (read.Some? ==> Listed(d.rules[rule].actions) == On(read.value, d.devices)))
       case FromPreset(preset, revision) =>
         && preset in d.presets && d.presets[preset].revision >= revision
         && (d.presets[preset].revision == revision ==> (read.Some? ==> read.value == ListedAll(d.presets[preset].actions)))
       case RunOnce => true
  }

  /** Every request in flight, stored plan and run tracks its source. */
  ghost predicate AllTrack(s: Site) {
    && (forall k | 0 <= k < |s.readings| :: Tracks(s.d, s.readings[k].source, s.readings[k].read))
    && (forall k | 0 <= k < |s.plans| :: Tracks(s.d, s.plans[k].source, Some(s.plans[k].read)))
    && (forall k | 0 <= k < |s.bundles| :: Tracks(s.d, s.bundles[k].source, Some(s.bundles[k].read)))
  }

  lemma GoneStaysGone(d: Definitions, e: Edit, rule: nat)
    requires Defs.WellFormed(d) && rule !in d.rules && rule < d.nextRule
    ensures rule !in Apply(d, e).d.rules
  {
  }

  /** Routers come and go, and what is left of a listing stays the listing of what is left. */
  lemma RoutersTrack(d: Definitions, e: Edit, rule: nat, read: seq<Action>)
    requires Defs.WellFormed(d) && rule in d.rules && rule in Apply(d, e).d.rules && (e.DropDevice? || e.Enroll?)
    requires Known(d, read) && Listed(d.rules[rule].actions) == On(read, d.devices)
    ensures Listed(Apply(d, e).d.rules[rule].actions) == On(read, Apply(d, e).d.devices)
  {
    if e.Enroll? {
      OnNew(read, d.devices, d.nextDevice);
    } else if Apply(d, e).reply.Done? {
      ListedOff(d.rules[rule].actions, e.router);
      OnDrop(read, d.devices, e.router);
    }
  }

  lemma RuleTracks(d: Definitions, e: Edit, source: Source, read: Option<seq<Action>>)
    requires Defs.WellFormed(d) && Tracks(d, source, read) && source.FromRule? && source.rule in Apply(d, e).d.rules
    ensures Tracks(Apply(d, e).d, source, read)
  {
    Defs.CountersGrow(d, e);
    if source.rule !in d.rules {
      GoneStaysGone(d, e, source.rule);
    } else {
      Defs.RuleRevision(d, e, source.rule);
      if (e.DropDevice? || e.Enroll?) && read.Some? && d.rules[source.rule].revision == source.revision {
        RoutersTrack(d, e, source.rule, read.value);
      }
    }
  }

  /** Every edit, removals of routers included, keeps a request tracking its source. */
  lemma EditTracks(d: Definitions, e: Edit, source: Source, read: Option<seq<Action>>)
    requires Defs.WellFormed(d) && Tracks(d, source, read)
    ensures Tracks(Apply(d, e).d, source, read)
  {
    Defs.CountersGrow(d, e);
    match source
    case FromRule(rule, _, _) =>
      if rule in Apply(d, e).d.rules { RuleTracks(d, e, source, read); }
    case FromPreset(preset, _) => Defs.PresetRevision(d, e, preset);
    case RunOnce =>
  }

  lemma EditKeepsTracking(s: Site, e: Event)
    requires Defs.WellFormed(s.d) && AllTrack(s) && e.Edits?
    ensures AllTrack(Next(s, e))
  {
    var d' := Apply(s.d, e.edit).d;
    forall k | 0 <= k < |s.readings| ensures Tracks(d', s.readings[k].source, s.readings[k].read) {
      EditTracks(s.d, e.edit, s.readings[k].source, s.readings[k].read);
    }
    forall k | 0 <= k < |s.plans| ensures Tracks(d', s.plans[k].source, Some(s.plans[k].read)) {
      EditTracks(s.d, e.edit, s.plans[k].source, Some(s.plans[k].read));
    }
    forall k | 0 <= k < |s.bundles| ensures Tracks(d', s.bundles[k].source, Some(s.bundles[k].read)) {
      EditTracks(s.d, e.edit, s.bundles[k].source, Some(s.bundles[k].read));
    }
  }

  /** What is listed is on enrolled routers. */
  lemma ListedEnrolled(d: Definitions, actions: seq<Action>)
    requires Defs.WellFormed(d) && Defs.RowsFit(d, actions)
    ensures Enrolled(d, Listed(actions)) && Known(d, Listed(actions))
    ensures Enrolled(d, ListedAll(actions)) && Known(d, ListedAll(actions))
  {
    SortedMembers(EnabledOnly(actions), Position);
    SortedMembers(actions, Position);
    forall a | a in EnabledOnly(actions) ensures a in actions {
      EnabledMembers(actions, a);
    }
  }

  lemma {:induction false} EnabledMembers(actions: seq<Action>, a: Action)
    ensures a in EnabledOnly(actions) <==> a in actions && a.enabled
  {
    if actions != [] {
      EnabledMembers(actions[..|actions| - 1], a);
      assert actions == actions[..|actions| - 1] + [actions[|actions| - 1]];
    }
  }

  lemma ReadTracks(d: Definitions, source: Source, read: Option<seq<Action>>)
    requires Defs.WellFormed(d) && Tracks(d, source, read)
    ensures Tracks(d, source, Some(CurrentActions(d, source)))
  {
    match source
    case FromRule(rule, _, _) =>
      if rule in d.rules {
        ListedEnrolled(d, d.rules[rule].actions);
        OnAll(Listed(d.rules[rule].actions), d.devices);
      }
    case FromPreset(preset, _) => ListedEnrolled(d, d.presets[preset].actions);
    case RunOnce =>
  }

  predicate Previews(e: Event) {
    e.PreviewRule? || e.PreviewPreset? || e.PreviewRunOnce? || e.Read?
  }

  lemma PreviewTracks(s: Site, e: Event)
    requires Defs.WellFormed(s.d) && AllTrack(s) && Previews(e)
    ensures AllTrack(Next(s, e))
  {
    if e.Read? && e.reading < |s.readings| {
      ReadTracks(s.d, s.readings[e.reading].source, s.readings[e.reading].read);
    }
  }

  lemma StoreTracks(s: Site, e: Event)
    requires AllTrack(s) && (e.Store? || e.Direct? || e.Accept? || e.Recovery?)
    ensures AllTrack(Next(s, e))
  {
  }

  lemma WorkTracks(s: Site, e: Event)
    requires AllTrack(s) && (e.Clock? || Works(e))
    ensures AllTrack(Next(s, e))
  {
    if Works(e) {
      WorkOnOne(s, e);
      forall k | 0 <= k < |s.bundles|
        ensures Tracks(s.d, Next(s, e).bundles[k].source, Some(Next(s, e).bundles[k].read))
      {
        assert Tracks(s.d, s.bundles[k].source, Some(s.bundles[k].read));
      }
    }
  }

  lemma TrackingKept(s: Site, e: Event)
    requires Defs.WellFormed(s.d) && AllTrack(s)
    ensures AllTrack(Next(s, e))
  {
    if e.Edits? {
      EditKeepsTracking(s, e);
    } else if Previews(e) {
      PreviewTracks(s, e);
    } else if e.Store? || e.Direct? || e.Accept? || e.Recovery? {
      StoreTracks(s, e);
    } else {
      WorkTracks(s, e);
    }
  }

  // ---- the ledger ----

  function RunsOf(b: Bundle): seq<Action> { Runs(b.source, b.body, b.read) }

  /** A ledger row's router cannot be deleted, and no run is prepared without its ledger. */
  ghost predicate LedgerHolds(d: Definitions, b: Bundle) {
    && (b.ledger ==> Enrolled(d, RunsOf(b)))
    && (b.phase == Stored || b.phase == Prepared ==> b.ledger)
  }

  ghost predicate LedgersHold(s: Site) {
    forall k | 0 <= k < |s.bundles| :: LedgerHolds(s.d, s.bundles[k])
  }

  lemma EditKeepsLedgers(s: Site, e: Event)
    requires LedgersHold(s) && e.Edits?
    ensures LedgersHold(Next(s, e))
  {
    Defs.CountersGrow(s.d, e.edit);
    forall k | 0 <= k < |s.bundles| ensures LedgerHolds(Next(s, e).d, s.bundles[k]) {
      assert LedgerHolds(s.d, s.bundles[k]);
      if s.bundles[k].ledger && e.edit.DropDevice? && !LedgerUses(s.bundles, e.edit.router) {
        forall a | a in RunsOf(s.bundles[k]) ensures a.device != e.edit.router {
          assert s.bundles[k] in s.bundles;
        }
      }
    }
  }

  lemma WorkKeepsLedgers(s: Site, e: Event)
    requires LedgersHold(s) && Works(e)
    ensures LedgersHold(Next(s, e))
  {
    WorkOnOne(s, e);
    forall k | 0 <= k < |s.bundles| ensures LedgerHolds(s.d, Next(s, e).bundles[k]) {
      assert LedgerHolds(s.d, s.bundles[k]);
    }
  }

  lemma AdmissionKeepsLedgers(s: Site, e: Event)
    requires LedgersHold(s) && (e.Direct? || e.Accept? || e.Recovery?)
    ensures LedgersHold(Next(s, e))
  {
    var s' := Next(s, e);
    assert s'.d == s.d && (s'.bundles == s.bundles || s'.bundles[..|s.bundles|] == s.bundles);
    forall k | 0 <= k < |s'.bundles| ensures LedgerHolds(s'.d, s'.bundles[k]) {
      if k < |s.bundles| { assert s'.bundles[k] == s'.bundles[..|s.bundles|][k] == s.bundles[k]; }
    }
  }

  lemma LedgersKept(s: Site, e: Event)
    requires LedgersHold(s)
    ensures LedgersHold(Next(s, e))
  {
    if e.Edits? {
      EditKeepsLedgers(s, e);
    } else if Works(e) {
      WorkKeepsLedgers(s, e);
    } else if e.Direct? || e.Accept? || e.Recovery? {
      AdmissionKeepsLedgers(s, e);
    }
  }

  // ---- what is submitted fits what was read ----

  ghost predicate Fits(source: Source, body: seq<Action>, read: seq<Action>) {
    source.FromPreset? ==> Overrides(read, body)
  }

  ghost predicate AllFit(s: Site) {
    && (forall k | 0 <= k < |s.readings| && s.readings[k].read.Some? ::
          Fits(s.readings[k].source, s.readings[k].body, s.readings[k].read.value))
    && (forall k | 0 <= k < |s.plans| :: Fits(s.plans[k].source, s.plans[k].body, s.plans[k].read))
    && (forall k | 0 <= k < |s.bundles| :: Fits(s.bundles[k].source, s.bundles[k].body, s.bundles[k].read))
  }

  lemma FittingKept(s: Site, e: Event)
    requires AllFit(s)
    ensures AllFit(Next(s, e))
  {
    if Works(e) {
      WorkOnOne(s, e);
      forall k | 0 <= k < |s.bundles|
        ensures Fits(Next(s, e).bundles[k].source, Next(s, e).bundles[k].body, Next(s, e).bundles[k].read)
      {
        assert Fits(s.bundles[k].source, s.bundles[k].body, s.bundles[k].read);
      }
    }
  }

  // ---- whole runs ----

  ghost predicate Sound(s: Site) {
    Good(s) && AllTrack(s) && LedgersHold(s) && AllFit(s)
  }

  lemma StepSound(s: Site, e: Event)
    requires Sound(s)
    ensures Sound(Next(s, e))
  {
    StepKeeps(s, e);
    TrackingKept(s, e);
    LedgersKept(s, e);
    FittingKept(s, e);
  }

  lemma {:induction false} RunSound(s: Site, es: seq<Event>)
    requires Sound(s)
    ensures Sound(After(s, es))
    decreases |es|
  {
    if es == [] {
    } else {
      StepSound(s, es[0]);
      RunSound(Next(s, es[0]), es[1..]);
    }
  }

  lemma FromStart(s: Site, es: seq<Event>)
    requires Start(s)
    ensures Sound(After(s, es))
  {
    StartIsGood(s);
    RunSound(s, es);
  }

  /** The source's rows are exactly what the request read, and its condition what it read. */
  ghost predicate ReadIsCurrent(d: Definitions, source: Source, read: seq<Action>) {
    match source
    case FromRule(rule, _, condition) =>
      rule in d.rules && read == Listed(d.rules[rule].actions) && condition == d.rules[rule].condition
    case FromPreset(preset, _) =>
      preset in d.presets && !d.presets[preset].archived && read == ListedAll(d.presets[preset].actions)
    case RunOnce => true
  }

  /**
   The source may be run by hand now: the rule is there, allows it and is at the recorded revision, or the saved
   mitigation is there, not archived and at the recorded revision.
   */
  predicate Permitted(d: Definitions, source: Source) {
    match source
    case FromRule(rule, revision, _) => rule in d.rules && d.rules[rule].manualApply && d.rules[rule].revision == revision
    case FromPreset(preset, revision) =>
      preset in d.presets && !d.presets[preset].archived && d.presets[preset].revision == revision
    case RunOnce => true
  }

  lemma PermittedIs(d: Definitions, source: Source)
    ensures SourceCurrent(d, source) <==> Permitted(d, source)
  {
  }

  /** With the revision check passed, what was read is current exactly when none of its routers is gone. */
  lemma CurrentIffEnrolled(d: Definitions, source: Source, read: seq<Action>)
    requires Defs.WellFormed(d) && Tracks(d, source, Some(read)) && SourceCurrent(d, source)
    ensures ReadIsCurrent(d, source, read) <==> Enrolled(d, read)
  {
    match source
    case FromRule(rule, _, _) =>
      OnWhole(read, d.devices);
      ListedEnrolled(d, d.rules[rule].actions);
    case FromPreset(preset, _) => ListedEnrolled(d, d.presets[preset].actions);
    case RunOnce =>
  }

  /** A confirmation that starts a run: the run carries the plan's source and rows, and the source is current. */
  lemma AcceptedFrom(s: Site, e: Event)
    requires e.Accept? && StartsRun(s, e)
    ensures e.plan < |s.plans| && |Next(s, e).bundles| == |s.bundles| + 1 && SourceCurrent(s.d, s.plans[e.plan].source)
    ensures
      var b, p := Next(s, e).bundles[|s.bundles|], s.plans[e.plan];
      b.source == p.source && b.body == p.body && b.read == p.read && b.ledger == Written(s.d, p, e.aftermath)
  {
  }

  lemma DirectFrom(s: Site, e: Event)
    requires e.Direct? && StartsRun(s, e)
    ensures e.reading < |s.readings| && s.readings[e.reading].read.Some? && SourceCurrent(s.d, s.readings[e.reading].source)
    ensures Next(s, e).bundles == s.bundles + [DirectBundle(s.readings[e.reading], e.request)]
  {
  }

  lemma StartedFrom(s: Site, e: Event)
    requires Sound(s) && StartsRun(s, e)
    ensures |Next(s, e).bundles| == |s.bundles| + 1
    ensures
      var b := Next(s, e).bundles[|s.bundles|];
      Tracks(s.d, b.source, Some(b.read)) && SourceCurrent(s.d, b.source) && Fits(b.source, b.body, b.read)
      && Permitted(s.d, b.source)
  {
    if e.Accept? {
      AcceptedFrom(s, e);
      assert Tracks(s.d, s.plans[e.plan].source, Some(s.plans[e.plan].read));
    } else {
      DirectFrom(s, e);
      assert Tracks(s.d, s.readings[e.reading].source, s.readings[e.reading].read);
    }
  }

  /**
   From a fresh start, through any interleaving of editors, router removals, previewers, confirmers and workers: a run that is
   started has a source that may be run by hand at that moment, and acts on exactly its rows, order and condition as they
   are then, if and only if every router that was read is still enrolled.
   */
  lemma StartIsCurrentIff(s: Site, es: seq<Event>, e: Event)
    requires Start(s) && StartsRun(After(s, es), e)
    ensures |Next(After(s, es), e).bundles| == |After(s, es).bundles| + 1
    ensures
      var now := After(s, es);
      var b := Next(now, e).bundles[|now.bundles|];
      Permitted(now.d, b.source) && (ReadIsCurrent(now.d, b.source, b.read) <==> Enrolled(now.d, b.read))
  {
    var now := After(s, es);
    FromStart(s, es);
    StartedFrom(now, e);
    var b := Next(now, e).bundles[|now.bundles|];
    CurrentIffEnrolled(now.d, b.source, b.read);
  }

  /** What a source can be run with while it may be: its current rows, of a saved mitigation with other routers and parameters. */
  ghost predicate RunsCurrentRows(d: Definitions, b: Bundle) {
    Permitted(d, b.source) && ReadIsCurrent(d, b.source, b.read) && Fits(b.source, b.body, b.read) && Enrolled(d, RunsOf(b))
  }

  lemma RunnableIsCurrent(d: Definitions, b: Bundle)
    requires Defs.WellFormed(d) && Tracks(d, b.source, Some(b.read)) && SourceCurrent(d, b.source)
    requires Fits(b.source, b.body, b.read) && Enrolled(d, RunsOf(b))
    ensures RunsCurrentRows(d, b)
  {
    CurrentIffEnrolled(d, b.source, b.read);
    if b.source.FromPreset? {
      ListedEnrolled(d, d.presets[b.source.preset].actions);
    }
  }

  /**
   No ABA: a confirmation that admits a run, after any run of the site whatever, runs exactly the rows, order and
   condition that are current, although they were read earlier in separate statements, and its ledger is written.
   */
  lemma RunStartsOnCurrentRows(s: Site, es: seq<Event>, e: Event)
    requires Start(s) && e.Accept?
    requires AcceptPlan(After(s, es), e.plan, e.user, e.token, e.scope, e.valid, e.aftermath).outcome.Admitted?
    ensures StartsRun(After(s, es), e) && |Next(After(s, es), e).bundles| == |After(s, es).bundles| + 1
    ensures
      var now := After(s, es);
      var b := Next(now, e).bundles[|now.bundles|];
      RunsCurrentRows(now.d, b) && RunsOf(b) != [] && b.ledger
  {
    var now := After(s, es);
    FromStart(s, es);
    StartedFrom(now, e);
    AcceptedFrom(now, e);
    RunnableIsCurrent(now.d, Next(now, e).bundles[|now.bundles|]);
  }

  // ---- prepared runs ----

  lemma {:induction false} AfterLast(s: Site, es: seq<Event>)
    requires es != []
    ensures After(s, es) == Next(After(s, es[..|es| - 1]), es[|es| - 1])
    decreases |es|
  {
    if |es| > 1 {
      AfterLast(Next(s, es[0]), es[1..]);
      assert es[1..][..|es| - 2] == es[..|es| - 1][1..];
    }
  }

  predicate PastCheck(b: Bundle) {
    b.phase == Checked || b.phase == Stored || b.phase == Prepared
  }

  /** The only way past the second check is a recheck that found the source current and its routers enrolled. */
  lemma OnlyRechecks(s: Site, e: Event, b: nat)
    requires b < |Next(s, e).bundles| && PastCheck(Next(s, e).bundles[b])
    requires b >= |s.bundles| || !PastCheck(s.bundles[b])
    ensures e == Recheck(b) && b < |s.bundles| && Next(s, e).bundles[b] == s.bundles[b].(phase := Checked)
    ensures SourceCurrent(s.d, s.bundles[b].source) && Enrolled(s.d, RunsOf(s.bundles[b]))
  {
    if Works(e) {
      WorkOnOne(s, e);
    }
  }

  lemma IdentityKept(s: Site, e: Event, b: nat)
    requires b < |s.bundles|
    ensures b < |Next(s, e).bundles| && SameIdentity(Next(s, e).bundles[b], s.bundles[b])
  {
    IdentitiesKept(s, e);
  }

  /** At point i of the run, the source of run b was checked again, and what b runs was current. */
  ghost predicate CheckedAt(s: Site, es: seq<Event>, i: nat, b: nat, run: Bundle)
    requires i < |es|
  {
    var at := After(s, es[..i]);
    es[i] == Recheck(b) && b < |at.bundles| && RunsCurrentRows(at.d, at.bundles[b]) && SameIdentity(run, at.bundles[b])
  }

  lemma CheckedExtends(s: Site, es: seq<Event>, i: nat, b: nat, run: Bundle, later: Bundle)
    requires i < |es| - 1 && CheckedAt(s, es[..|es| - 1], i, b, run) && SameIdentity(later, run)
    ensures CheckedAt(s, es, i, b, later)
  {
    assert es[..i] == es[..|es| - 1][..i];
  }

  lemma CheckedNow(s: Site, e: Event, b: nat)
    requires Sound(s) && b < |Next(s, e).bundles| && PastCheck(Next(s, e).bundles[b])
    requires b >= |s.bundles| || !PastCheck(s.bundles[b])
    ensures e == Recheck(b) && b < |s.bundles| && RunsCurrentRows(s.d, s.bundles[b])
    ensures SameIdentity(Next(s, e).bundles[b], s.bundles[b])
  {
    OnlyRechecks(s, e, b);
    RunnableIsCurrent(s.d, s.bundles[b]);
  }

  /**
   Over any run of the site from a fresh start: a direct run that got past its second check, and so every prepared
   one, passed it at a moment when what it runs was exactly the current rows of its source on enrolled routers.
   */
  lemma {:induction false} PreparedOnCurrentRows(s: Site, es: seq<Event>, b: nat) returns (i: nat)
    requires Start(s) && b < |After(s, es).bundles| && PastCheck(After(s, es).bundles[b])
    ensures i < |es| && CheckedAt(s, es, i, b, After(s, es).bundles[b])
    decreases |es|
  {
    assert es != [];
    var front, last := es[..|es| - 1], es[|es| - 1];
    var before := After(s, front);
    AfterLast(s, es);
    if b < |before.bundles| && PastCheck(before.bundles[b]) {
      i := PreparedOnCurrentRows(s, front, b);
      IdentityKept(before, last, b);
      CheckedExtends(s, es, i, b, before.bundles[b], Next(before, last).bundles[b]);
    } else {
      FromStart(s, front);
      CheckedNow(before, last, b);
      i := |es| - 1;
    }
  }

  /** Over any run of the site: the routers of every written ledger, and so of every prepared run, stay enrolled. */
  lemma LedgerRoutersStay(s: Site, es: seq<Event>, b: nat)
    requires Start(s) && b < |After(s, es).bundles|
    requires After(s, es).bundles[b].ledger || After(s, es).bundles[b].phase == Prepared
    ensures Enrolled(After(s, es).d, RunsOf(After(s, es).bundles[b]))
  {
    FromStart(s, es);
    assert LedgerHolds(After(s, es).d, After(s, es).bundles[b]);
  }

  // ---- when a router is gone ----

  /** Router ids are not handed out twice. */
  lemma {:induction false} GoneForGood(s: Site, es: seq<Event>, router: nat)
    requires router < s.d.nextDevice && router !in s.d.devices
    ensures router < After(s, es).d.nextDevice && router !in After(s, es).d.devices
    decreases |es|
  {
    if es == [] {
    } else {
      if es[0].Edits? { Defs.CountersGrow(s.d, es[0].edit); }
      GoneForGood(Next(s, es[0]), es[1..], router);
    }
  }

  lemma {:induction false} IdentityStays(s: Site, es: seq<Event>, b: nat)
    requires b < |s.bundles|
    ensures b < |After(s, es).bundles| && SameIdentity(After(s, es).bundles[b], s.bundles[b])
    decreases |es|
  {
    if es == [] {
    } else {
      IdentityKept(s, es[0], b);
      IdentityStays(Next(s, es[0]), es[1..], b);
    }
  }

  /** A run on a router that is gone never gets its ledger and is never prepared, whatever happens later. */
  lemma GoneNeverPrepared(s: Site, es: seq<Event>, b: nat, a: Action)
    requires Sound(s) && b < |s.bundles| && a in RunsOf(s.bundles[b])
    requires a.device < s.d.nextDevice && a.device !in s.d.devices
    ensures b < |After(s, es).bundles| && !After(s, es).bundles[b].ledger && After(s, es).bundles[b].phase != Prepared
  {
    RunSound(s, es);
    GoneForGood(s, es, a.device);
    IdentityStays(s, es, b);
    assert LedgerHolds(After(s, es).d, After(s, es).bundles[b]);
  }

  /** A plan that would run on a router that is gone is never admitted, with whatever credentials and whenever. */
  lemma GoneNeverAdmitted(s: Site, es: seq<Event>, plan: nat, a: Action,
                          user: nat, token: nat, scope: Scope, valid: bool, aftermath: Aftermath)
    requires Sound(s) && plan < |s.plans| && a in Runs(s.plans[plan].source, s.plans[plan].body, s.plans[plan].read)
    requires a.device < s.d.nextDevice && a.device !in s.d.devices
    ensures !AcceptPlan(After(s, es), plan, user, token, scope, valid, aftermath).outcome.Admitted?
  {
    PlanKept(s, es, plan);
    GoneForGood(s, es, a.device);
  }

  predicate RunsOn(actions: seq<Action>, device: nat) {
    exists a | a in actions :: a.enabled && a.device == device
  }

  /** Losing a router shortens what is listed exactly when an enabled action is on it. */
  lemma ListingLoses(actions: seq<Action>, router: nat)
    ensures Listed(OffDevice(actions, router)) == Listed(actions) <==> !RunsOn(actions, router)
  {
    ListedOff(actions, router);
    SortedMembers(EnabledOnly(actions), Position);
    forall a ensures a in Listed(actions) <==> a in actions && a.enabled {
      EnabledMembers(actions, a);
    }
    if RunsOn(actions, router) {
      var a :| a in actions && a.enabled && a.device == router;
      OffMembers(Listed(actions), router, a);
    } else {
      Defs.OffDeviceKeeps(Listed(actions), router);
    }
  }

  /**
   Removing a router does not touch the revision, so what was read before still passes the revision check; it is
   current exactly when no enabled action of the rule was on that router.
   */
  lemma RemovalPassesRevisionCheck(d: Definitions, router: nat, rule: nat, revision: nat, condition: int, read: seq<Action>)
    requires Apply(d, DropDevice(router, false)).reply.Done?
    requires rule in d.rules && d.rules[rule].device != Some(router)
    requires SourceCurrent(d, FromRule(rule, revision, condition))
    requires ReadIsCurrent(d, FromRule(rule, revision, condition), read)
    ensures SourceCurrent(Apply(d, DropDevice(router, false)).d, FromRule(rule, revision, condition))
    ensures ReadIsCurrent(Apply(d, DropDevice(router, false)).d, FromRule(rule, revision, condition), read)
       <==> !RunsOn(d.rules[rule].actions, router)
  {
    ListingLoses(d.rules[rule].actions, router);
  }

  /** An action that was read is on the router, and the router may be deleted. */
  ghost predicate Removable(s: Site, source: Source, read: seq<Action>, router: nat) {
    && source.FromRule? && SourceCurrent(s.d, source) && ReadIsCurrent(s.d, source, read)
    && RunsOn(s.d.rules[source.rule].actions, router) && s.d.rules[source.rule].device != Some(router)
    && Apply(s.d, DropDevice(router, false)).reply.Done? && !LedgerUses(s.bundles, router)
  }

  lemma RemovalLosesARow(s: Site, source: Source, read: seq<Action>, router: nat) returns (a: Action)
    requires Removable(s, source, read, router)
    ensures a in read && a.device == router
  {
    var actions := s.d.rules[source.rule].actions;
    SortedMembers(EnabledOnly(actions), Position);
    a :| a in actions && a.enabled && a.device == router;
    EnabledMembers(actions, a);
  }

  /** The site once the router is deleted. */
  function Dropped(s: Site, router: nat): Site { Next(s, Edits(DropDevice(router, false))) }

  /** Only the definitions change; the revision check passes and the rows that were read are out of date. */
  lemma DroppedFacts(s: Site, source: Source, read: seq<Action>, router: nat)
    requires Defs.WellFormed(s.d) && Removable(s, source, read, router)
    ensures Dropped(s, router) == s.(d := Dropped(s, router).d)
    ensures router !in Dropped(s, router).d.devices && router < Dropped(s, router).d.nextDevice
    ensures SourceCurrent(Dropped(s, router).d, source) && !ReadIsCurrent(Dropped(s, router).d, source, read)
  {
    RemovalPassesRevisionCheck(s.d, router, source.rule, source.revision, source.condition, read);
  }

  /**
   A router is deleted between the preview of a rule and its confirmation: the revision check still passes, the plan
   is used up, its run is created, and that run is refused unless the process dies first.
   */
  lemma RemovalRefusesConfirmation(s: Site, plan: nat, router: nat, aftermath: Aftermath)
    requires Good(s) && plan < |s.plans| && !s.plans[plan].consumed && s.clock < s.plans[plan].expires
    requires Removable(s, s.plans[plan].source, s.plans[plan].read, router)
    ensures
      var p := s.plans[plan];
      var dropped := Dropped(s, router);
      var c := AcceptPlan(dropped, plan, p.user, p.token, ScopeOf(p.source), true, aftermath);
      && SourceCurrent(dropped.d, p.source) && !ReadIsCurrent(dropped.d, p.source, p.read)
      && c.s.plans == s.plans[plan := p.(consumed := true, bundle := Some(|s.bundles|))]
      && c.s.bundles == s.bundles + [NewBundle(p, plan).(planned := aftermath.Dies?)]
      && c.outcome == if aftermath.Dies? then Unanswered(|s.bundles|) else NotAdmitted(|s.bundles|)
  {
    var p := s.plans[plan];
    DroppedFacts(s, p.source, p.read, router);
    var a := RemovalLosesARow(s, p.source, p.read, router);
    assert !Enrolled(Dropped(s, router).d, p.read);
  }

  /** What a direct request needs to publish a run: no look at the routers is among it. */
  lemma DirectPublishes(s: Site, reading: nat, request: nat)
    requires reading < |s.readings| && s.readings[reading].read.Some?
    requires Runs(s.readings[reading].source, s.readings[reading].body, s.readings[reading].read.value) != []
    requires SourceCurrent(s.d, s.readings[reading].source)
    requires NewestRequest(s.bundles, s.readings[reading].user, request).None?
    requires NewestActive(s.bundles, s.readings[reading].source).None?
    ensures Next(s, Direct(reading, request, true)).bundles == s.bundles + [DirectBundle(s.readings[reading], request)]
    ensures Next(s, Direct(reading, request, true)).d == s.d
  {
  }

  /** A request that may start a run now. */
  ghost predicate MayStart(s: Site, reading: nat, request: nat) {
    && reading < |s.readings| && s.readings[reading].read.Some?
    && NewestRequest(s.bundles, s.readings[reading].user, request).None?
    && NewestActive(s.bundles, s.readings[reading].source).None?
  }

  /**
   The exception: a direct request that read a rule before the router was deleted still publishes a run of rows that
   are gone. In no continuation is that run prepared.
   */
  lemma StaleDirectRun(s: Site, reading: nat, request: nat, router: nat, es: seq<Event>)
    requires Sound(s) && MayStart(s, reading, request)
    requires Removable(s, s.readings[reading].source, s.readings[reading].read.value, router)
    ensures
      var started := Next(Dropped(s, router), Direct(reading, request, true));
      var b := |s.bundles|;
      && started.bundles == s.bundles + [DirectBundle(s.readings[reading], request)]
      && !ReadIsCurrent(started.d, s.readings[reading].source, s.readings[reading].read.value)
      && b < |After(started, es).bundles|
      && !After(started, es).bundles[b].ledger && After(started, es).bundles[b].phase != Prepared
  {
    var r := s.readings[reading];
    DroppedFacts(s, r.source, r.read.value, router);
    var a := RemovalLosesARow(s, r.source, r.read.value, router);
    DirectPublishes(Dropped(s, router), reading, request);
    var started := Next(Dropped(s, router), Direct(reading, request, true));
    StepSound(s, Edits(DropDevice(router, false)));
    StepSound(Dropped(s, router), Direct(reading, request, true));
    assert started.bundles[|s.bundles|] == DirectBundle(r, request);
    GoneNeverPrepared(started, es, |s.bundles|, a);
  }
}
