/** When each request starts, repeats or refuses a run, and what it stores, said of the rows themselves. */
module AdmissionMeaning {
  import opened Options
  import opened DefinitionTables
  import opened Sorting
  import Defs = DefinitionSafety
  import opened AdmissionTables
  import opened AdmissionSafety
  import opened AdmissionCurrent
  import opened DefinitionMeaning

  // ---- what a run executes ----

  lemma {:induction false} EnabledKeepOrder(actions: seq<Action>)
    ensures SameOrder(actions, EnabledOnly(actions))
    ensures forall a :: a in EnabledOnly(actions) <==> a in actions && a.enabled
  {
    if actions != [] {
      var front, last := actions[..|actions| - 1], actions[|actions| - 1];
      assert actions == front + [last];
      EnabledKeepOrder(front);
      OrderGrows(front, EnabledOnly(front), last);
    }
  }

  lemma {:induction false} EnabledOnce(actions: seq<Action>)
    requires Defs.DistinctIds(actions)
    ensures Defs.DistinctIds(EnabledOnly(actions))
  {
    if actions != [] {
      var front, last := actions[..|actions| - 1], actions[|actions| - 1];
      EnabledOnce(front);
      EnabledKeepOrder(front);
      forall k | 0 <= k < |EnabledOnly(front)| ensures EnabledOnly(front)[k].id != last.id {
        assert EnabledOnly(front)[k] in front;
      }
    }
  }

  lemma SortedOnce(rows: seq<Action>)
    requires Defs.DistinctIds(rows)
    ensures forall j, k | 0 <= j < k < |SortBy(rows, Position)| :: SortBy(rows, Position)[j] != SortBy(rows, Position)[k]
  {
    var s := SortBy(rows, Position);
    SortedFacts(rows, Position);
    forall j, k | 0 <= j < k < |s| ensures s[j] != s[k] {
      Defs.NoTwice(s, j, k);
      Defs.OnlyOnce(rows, s[j]);
    }
  }

  /**
   A rule is run with its enabled actions and no others, each once, by position, and those of one position in the order
   of their rows.
   */
  lemma ListedIs(actions: seq<Action>)
    requires Defs.DistinctIds(actions)
    ensures
      var run := Listed(actions);
      && (forall a :: a in run <==> a in actions && a.enabled)
      && forall j, k | 0 <= j < k < |run| ::
           && run[j] != run[k] && run[j].position <= run[k].position
           && (run[j].position == run[k].position ==> Precedes(actions, run[j], run[k]))
  {
    var on, run := EnabledOnly(actions), Listed(actions);
    EnabledKeepOrder(actions);
    EnabledOnce(actions);
    SortedFacts(on, Position);
    SortedMembers(on, Position);
    SortedOnce(on);
    forall j, k | 0 <= j < k < |run|
      ensures run[j].position <= run[k].position
      ensures run[j].position == run[k].position ==> Precedes(actions, run[j], run[k])
    {
      assert Position(run[j]) <= Position(run[k]);
      if run[j].position == run[k].position {
        var i, l := StableOrder(on, Position, j, k);
        assert Precedes(actions, on[i], on[l]);
      }
    }
  }

  /** A run of this request executes the action: any that was read of a rule, else any enabled one that was submitted. */
  predicate Executes(source: Source, body: seq<Action>, read: seq<Action>, a: Action) {
    if source.FromRule? then a in read else a in body && a.enabled
  }

  /** There is something to execute, and every router of it is enrolled. */
  ghost predicate Runnable(d: Definitions, source: Source, body: seq<Action>, read: seq<Action>) {
    && (exists a :: Executes(source, body, read, a))
    && forall a | Executes(source, body, read, a) :: a.device in d.devices
  }

  lemma RunsAre(source: Source, body: seq<Action>, read: seq<Action>)
    ensures forall a :: a in Runs(source, body, read) <==> Executes(source, body, read, a)
    ensures Runs(source, body, read) == [] <==> forall a :: !Executes(source, body, read, a)
  {
    var runs := Runs(source, body, read);
    forall a ensures a in runs <==> Executes(source, body, read, a) {
      EnabledMembers(body, a);
    }
    if runs != [] {
      assert runs[0] in runs;
    }
  }

  lemma RunnableIs(d: Definitions, source: Source, body: seq<Action>, read: seq<Action>)
    ensures Persistable(d, Runs(source, body, read)) <==> Runnable(d, source, body, read)
    ensures Enrolled(d, Runs(source, body, read)) <==> forall a | Executes(source, body, read, a) :: a.device in d.devices
  {
    RunsAre(source, body, read);
  }

  // ---- previews ----

  /** A preview begins where the rule may be run by hand, or the saved mitigation is as the caller saw it; it notes the revision. */
  lemma PreviewBegins(s: Site, e: Event)
    requires e.PreviewRule? || e.PreviewPreset? || e.PreviewRunOnce?
    ensures
      var begun := match e
        case PreviewRule(user, rule) =>
          if rule in s.d.rules && s.d.rules[rule].manualApply then
            Some(Reading(user, FromRule(rule, s.d.rules[rule].revision, s.d.rules[rule].condition), [], None))
          else None
        case PreviewPreset(user, preset, expected, body) =>
          if AsSeen(s.d, preset, expected) then Some(Reading(user, FromPreset(preset, s.d.presets[preset].revision), body, None))
          else None
        case PreviewRunOnce(user, body) => Some(Reading(user, RunOnce, body, None));
      Next(s, e) == if begun.Some? then s.(readings := s.readings + [begun.value]) else s
  {
  }

  /** The body names the actions read, in order, and differs from them in routers, parameters and positions at most. */
  predicate SameActions(read: seq<Action>, body: seq<Action>) {
    && |body| == |read|
    && forall k | 0 <= k < |read| ::
         body[k] == read[k].(device := body[k].device, params := body[k].params, position := body[k].position)
  }

  /** The rows a source has now. */
  function RowsNow(d: Definitions, source: Source): seq<Action> {
    match source
    case FromRule(rule, _, _) => if rule in d.rules then Listed(d.rules[rule].actions) else []
    case FromPreset(preset, _) => if preset in d.presets then ListedAll(d.presets[preset].actions) else []
    case RunOnce => []
  }

  lemma ReadIs(s: Site, reading: nat)
    ensures
      if reading < |s.readings|
        && (s.readings[reading].source.FromPreset? ==>
              SameActions(RowsNow(s.d, s.readings[reading].source), s.readings[reading].body))
      then
        var r := s.readings[reading];
        Next(s, Read(reading)) == s.(readings := s.readings[reading := r.(read := Some(RowsNow(s.d, r.source)))])
      else Next(s, Read(reading)) == s
  {
    if reading < |s.readings| {
      var saved, body := RowsNow(s.d, s.readings[reading].source), s.readings[reading].body;
      assert Overrides(saved, body) <==> SameActions(saved, body);
    }
  }

  /** A plan is stored exactly for what can be run, for the user who previewed it and for five minutes. */
  lemma StoreIs(s: Site, reading: nat, token: nat)
    ensures
      if reading < |s.readings| && s.readings[reading].read.Some?
        && Runnable(s.d, s.readings[reading].source, s.readings[reading].body, s.readings[reading].read.value)
      then
        var r := s.readings[reading];
        Next(s, Store(reading, token))
          == s.(plans := s.plans + [Plan(r.user, token, r.source, r.body, r.read.value, s.clock + 300, false, None)])
      else Next(s, Store(reading, token)) == s
  {
    if reading < |s.readings| && s.readings[reading].read.Some? {
      RunnableIs(s.d, s.readings[reading].source, s.readings[reading].body, s.readings[reading].read.value);
    }
  }

  // ---- confirmations ----

  /** The plan's own user confirms it, with its token, where it was previewed. */
  predicate Credentials(s: Site, plan: nat, user: nat, token: nat, scope: Scope) {
    && plan < |s.plans| && s.plans[plan].user == user && s.plans[plan].token == token
    && match s.plans[plan].source
       case FromRule(rule, _, _) => scope == RuleApply(rule)
       case FromPreset(preset, _) => scope == ManualMitigation(Some(preset))
       case RunOnce => scope == ManualMitigation(None)
  }

  /** The plan was not used, has not expired, and its source may be run by hand now. */
  predicate Startable(s: Site, plan: nat, valid: bool)
    requires plan < |s.plans|
  {
    !s.plans[plan].consumed && s.clock < s.plans[plan].expires && Permitted(s.d, s.plans[plan].source) && valid
  }

  /**
   A confirmation with the plan's credentials repeats the answer once the plan is used, starts its run while it may, and is
   declined otherwise.
   */
  lemma AcceptIs(s: Site, plan: nat, user: nat, token: nat, scope: Scope, valid: bool, aftermath: Aftermath)
    ensures
      var c := AcceptPlan(s, plan, user, token, scope, valid, aftermath);
      if Credentials(s, plan, user, token, scope) && s.plans[plan].consumed && s.plans[plan].bundle.Some? then
        var b := s.plans[plan].bundle.value;
        c == Confirmed(s.(answers := s.answers + [PlanAnswer(plan, b, true)]), Replayed(b))
      else if Credentials(s, plan, user, token, scope) && Startable(s, plan, valid) then
        c.s.bundles != s.bundles && Started(s, plan, aftermath, c)
      else c == Confirmed(s, Declined)
  {
    if Credentials(s, plan, user, token, scope) {
      PermittedIs(s.d, s.plans[plan].source);
      if Startable(s, plan, valid) { StartedIs(s, plan, user, token, scope, valid, aftermath); }
    }
  }

  /**
   The plan is used up by its run. The run is admitted exactly when its ledger was reached and could be written and the
   process lived; it is refused, and no longer planned, when it lived otherwise.
   */
  ghost predicate Started(s: Site, plan: nat, aftermath: Aftermath, c: Confirmed)
    requires plan < |s.plans|
  {
    var p, n := s.plans[plan], |s.bundles|;
    var ledger :=
      (match aftermath case Admits => true case Refuses(w) => w case Dies(w) => w) && Runnable(s.d, p.source, p.body, p.read);
    var outcome := if aftermath.Dies? then Unanswered(n) else if aftermath.Admits? && ledger then Admitted(n) else NotAdmitted(n);
    && c.outcome == outcome
    && c.s == s.(
         bundles := s.bundles
           + [Bundle(p.user, None, false, p.source, p.body, p.read, Some(plan), !outcome.NotAdmitted?, NoPhase, false, ledger)],
         plans := s.plans[plan := p.(consumed := true, bundle := Some(n))],
         answers := if outcome.Admitted? then s.answers + [PlanAnswer(plan, n, false)] else s.answers)
  }

  lemma StartedIs(s: Site, plan: nat, user: nat, token: nat, scope: Scope, valid: bool, aftermath: Aftermath)
    requires Credentials(s, plan, user, token, scope) && Startable(s, plan, valid)
    ensures Started(s, plan, aftermath, AcceptPlan(s, plan, user, token, scope, valid, aftermath))
  {
    var p := s.plans[plan];
    PermittedIs(s.d, p.source);
    RunnableIs(s.d, p.source, p.body, p.read);
  }

  // ---- direct runs ----

  /** The newest run of that user and request id. */
  predicate IsNewestOf(bundles: seq<Bundle>, user: nat, request: nat, n: nat) {
    && n < |bundles| && bundles[n].user == user && bundles[n].request == Some(request)
    && forall k | n < k < |bundles| :: bundles[k].user != user || bundles[k].request != Some(request)
  }

  /** A forward run of the same rule or saved mitigation is planned or unfinished. */
  predicate InTheWay(b: Bundle, source: Source) {
    && !b.recovery && (b.planned || b.busy)
    && match source
       case FromRule(rule, _, _) => b.source.FromRule? && b.source.rule == rule
       case FromPreset(preset, _) => b.source.FromPreset? && b.source.preset == preset
       case RunOnce => false
  }

  predicate IsNewestInTheWay(bundles: seq<Bundle>, source: Source, n: nat) {
    && n < |bundles| && InTheWay(bundles[n], source) && forall k | n < k < |bundles| :: !InTheWay(bundles[k], source)
  }

  lemma {:induction false} NewestActiveIs(bundles: seq<Bundle>, source: Source)
    ensures NewestActive(bundles, source).Some? ==> IsNewestInTheWay(bundles, source, NewestActive(bundles, source).value)
    ensures NewestActive(bundles, source).None? ==> forall k | 0 <= k < |bundles| :: !InTheWay(bundles[k], source)
  {
    if bundles != [] {
      var n := |bundles| - 1;
      assert Occupies(bundles[n], source) <==> InTheWay(bundles[n], source);
      NewestActiveIs(bundles[..n], source);
      assert bundles == bundles[..n] + [bundles[n]];
    }
  }

  lemma NewestRequestIs(bundles: seq<Bundle>, user: nat, request: nat)
    ensures
      var n := NewestRequest(bundles, user, request);
      if n.Some? then IsNewestOf(bundles, user, request, n.value)
      else forall k | 0 <= k < |bundles| :: bundles[k].user != user || bundles[k].request != Some(request)
  {
    var n := NewestRequest(bundles, user, request);
    if n.Some? {
      assert SameRequest(bundles[n.value], user, request);
      assert forall k | n.value < k < |bundles| :: !SameRequest(bundles[k], user, request);
    } else {
      assert forall k | 0 <= k < |bundles| :: !SameRequest(bundles[k], user, request);
    }
  }

  /** The request has read what it wants to run, and that is something. */
  ghost predicate HasWork(s: Site, reading: nat) {
    && reading < |s.readings| && s.readings[reading].read.Some?
    && exists a :: Executes(s.readings[reading].source, s.readings[reading].body, s.readings[reading].read.value, a)
  }

  /** Answered with run n, which exists already. */
  predicate RepeatsRun(s: Site, c: Confirmed, user: nat, request: nat, n: nat) {
    c == Confirmed(s.(answers := s.answers + [DirectAnswer(user, request, n, true)]), Replayed(n))
  }

  /**
   A request id seen before, then a run in the way, is answered with that run; else a new run starts if its source may be
   run by hand.
   */
  lemma DirectIs(s: Site, reading: nat, request: nat, cooled: bool)
    ensures
      var c := AdmitDirect(s, reading, request, cooled);
      if !HasWork(s, reading) then c == Confirmed(s, Declined)
      else
        var r := s.readings[reading];
        if k :| 0 <= k < |s.bundles| && s.bundles[k].user == r.user && s.bundles[k].request == Some(request) then
          exists n :: IsNewestOf(s.bundles, r.user, request, n) && RepeatsRun(s, c, r.user, request, n)
        else if !Permitted(s.d, r.source) then c == Confirmed(s, Declined)
        else if k :| 0 <= k < |s.bundles| && InTheWay(s.bundles[k], r.source) then
          exists n :: IsNewestInTheWay(s.bundles, r.source, n) && RepeatsRun(s, c, r.user, request, n)
        else if !cooled then c == Confirmed(s, Declined)
        else
          c == Confirmed(
                 s.(bundles := s.bundles
                      + [Bundle(r.user, Some(request), false, r.source, r.body, r.read.value, None, true, Published, false, false)],
                    answers := s.answers + [DirectAnswer(r.user, request, |s.bundles|, false)]),
                 Admitted(|s.bundles|))
  {
    if reading < |s.readings| && s.readings[reading].read.Some? {
      var r := s.readings[reading];
      RunsAre(r.source, r.body, r.read.value);
      PermittedIs(s.d, r.source);
      NewestRequestIs(s.bundles, r.user, request);
      NewestActiveIs(s.bundles, r.source);
    }
  }

  // ---- workers ----

  /** Only run b moves, to the row given. */
  predicate Becomes(s: Site, s': Site, b: nat, row: Bundle)
    requires b < |s.bundles|
  {
    s' == s.(bundles := s.bundles[b := row], wins := s'.wins)
  }

  /** A worker wins a planned, published run once, and only that. */
  lemma ClaimIs(s: Site, b: nat)
    requires b < |s.bundles|
    ensures
      var row, s' := s.bundles[b], Next(s, Claim(b));
      if row.planned && row.phase == Published then
        Becomes(s, s', b, row.(phase := Preparing)) && s'.wins == s.wins + multiset{b}
      else s' == s
  {
  }

  /** The second check passes exactly while the source may be run by hand and every router is enrolled; else the run is settled. */
  lemma RecheckIs(s: Site, b: nat)
    requires b < |s.bundles|
    ensures
      var row, s' := s.bundles[b], Next(s, Recheck(b));
      && s'.wins == s.wins
      && if !row.planned || row.phase != Preparing then s' == s
         else if Permitted(s.d, row.source)
           && forall a | Executes(row.source, row.body, row.read, a) :: a.device in s.d.devices
         then Becomes(s, s', b, row.(phase := Checked))
         else Becomes(s, s', b, row.(planned := false))
  {
    var row := s.bundles[b];
    PermittedIs(s.d, row.source);
    RunnableIs(s.d, row.source, row.body, row.read);
  }

  /** A checked run gets its ledger exactly when it can be run; else it is settled. A stored run is prepared while it is planned. */
  lemma LedgerIs(s: Site, b: nat)
    requires b < |s.bundles|
    ensures
      var row, s', s'' := s.bundles[b], Next(s, Persist(b)), Next(s, Finish(b));
      && s'.wins == s.wins == s''.wins
      && (if row.phase != Checked then s' == s
          else if Runnable(s.d, row.source, row.body, row.read) then Becomes(s, s', b, row.(phase := Stored, ledger := true))
          else Becomes(s, s', b, row.(planned := false)))
      && if row.planned && row.phase == Stored then Becomes(s, s'', b, row.(phase := Prepared)) else s'' == s
  {
    var row := s.bundles[b];
    RunnableIs(s.d, row.source, row.body, row.read);
  }

  /** A router whose ledger row exists cannot be deleted; every other edit is applied as it is. */
  lemma EditIs(s: Site, e: Edit)
    ensures
      var kept := e.DropDevice? && exists k | 0 <= k < |s.bundles| ::
        && s.bundles[k].ledger
        && exists a | Executes(s.bundles[k].source, s.bundles[k].body, s.bundles[k].read, a) :: a.device == e.router;
      Next(s, Edits(e)) == if kept then s else s.(d := Apply(s.d, e).d)
  {
    if e.DropDevice? {
      forall k | 0 <= k < |s.bundles|
        ensures s.bundles[k] in s.bundles
        ensures forall a ::
          (a in Runs(s.bundles[k].source, s.bundles[k].body, s.bundles[k].read)
           <==> Executes(s.bundles[k].source, s.bundles[k].body, s.bundles[k].read, a))
      {
        RunsAre(s.bundles[k].source, s.bundles[k].body, s.bundles[k].read);
      }
    }
  }

  /** The executor moves on only the run it names, and makes no run planned again. */
  lemma MovesIs(s: Site, b: nat, planned: bool, busy: bool)
    requires b < |s.bundles|
    ensures
      var row, s' := s.bundles[b], Next(s, Moves(b, planned, busy));
      s'.wins == s.wins && Becomes(s, s', b, row.(planned := row.planned && planned, busy := busy))
  {
  }

  lemma StaysSettled(s: Site, e: Event, b: nat)
    requires b < |s.bundles|
    ensures b < |Next(s, e).bundles|
    ensures !s.bundles[b].planned ==> !Next(s, e).bundles[b].planned
    ensures !s.bundles[b].planned && s.bundles[b].phase != Prepared ==> Next(s, e).bundles[b].phase != Prepared
  {
    IdentitiesKept(s, e);
    if Works(e) {
      WorkStaysOnOne(s, e);
      if e.bundle == b {
        match e
        case Claim(_) => ClaimIs(s, b);
        case Recheck(_) => RecheckIs(s, b);
        case Persist(_) => LedgerIs(s, b);
        case Finish(_) => LedgerIs(s, b);
        case Moves(_, planned, busy) => MovesIs(s, b, planned, busy);
        case _ =>
      }
    }
  }

  /** A run that was settled before it was prepared is never planned again and never prepared, whatever happens later. */
  lemma {:induction false} SettledForGood(s: Site, es: seq<Event>, b: nat)
    requires b < |s.bundles| && !s.bundles[b].planned
    ensures b < |After(s, es).bundles| && !After(s, es).bundles[b].planned
    ensures s.bundles[b].phase != Prepared ==> After(s, es).bundles[b].phase != Prepared
    decreases |es|
  {
    if es != [] {
      StaysSettled(s, es[0], b);
      SettledForGood(Next(s, es[0]), es[1..], b);
    }
  }
}
