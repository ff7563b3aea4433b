/** Runs of editors, previewers, confirmers and workers in any interleaving. */
module AdmissionSafety {
  import opened Options
  import opened DefinitionTables
  import Defs = DefinitionSafety
  import opened AdmissionTables

  // ---- at most one run per plan ----

  /** A plan is consumed exactly when it is bound to a run, and binding is one to one. */
  ghost predicate PlansBound(s: Site) {
    && (forall p | 0 <= p < |s.plans| :: s.plans[p].consumed <==> s.plans[p].bundle.Some?)
    && (forall p | 0 <= p < |s.plans| && s.plans[p].bundle.Some? ::
          s.plans[p].bundle.value < |s.bundles| && s.bundles[s.plans[p].bundle.value].plan == Some(p))
    && (forall b | 0 <= b < |s.bundles| && s.bundles[b].plan.Some? ::
          s.bundles[b].plan.value < |s.plans| && s.plans[s.bundles[b].plan.value].bundle == Some(b))
  }

  /** Answers that started a run for plan p. */
  function FirstAnswers(answers: seq<Answer>, p: nat): nat {
    if answers == [] then 0
    else
      var a := answers[|answers| - 1];
      FirstAnswers(answers[..|answers| - 1], p) + if a.PlanAnswer? && a.plan == p && !a.already then 1 else 0
  }

  ghost predicate PlansAnswered(s: Site) {
    && (forall k | 0 <= k < |s.answers| && s.answers[k].PlanAnswer? ::
          s.answers[k].plan < |s.plans| && s.plans[s.answers[k].plan].bundle == Some(s.answers[k].bundle))
    && (forall p: nat :: FirstAnswers(s.answers, p) <= 1)
    && (forall p: nat | FirstAnswers(s.answers, p) > 0 :: p < |s.plans| && s.plans[p].consumed)
  }

  lemma OneMoreAnswer(answers: seq<Answer>, a: Answer, p: nat)
    ensures FirstAnswers(answers + [a], p)
         == FirstAnswers(answers, p) + if a.PlanAnswer? && a.plan == p && !a.already then 1 else 0
  {
    assert (answers + [a])[..|answers|] == answers;
  }

  /** What never changes in a run's row once it is inserted. */
  predicate SameIdentity(a: Bundle, b: Bundle) {
    a.user == b.user && a.request == b.request && a.recovery == b.recovery && a.source == b.source
    && a.body == b.body && a.read == b.read && a.plan == b.plan
  }

  /** Rows are only added; runs keep their identity, new ones belong to no plan, and new plans are not consumed. */
  ghost predicate RowsKept(s: Site, s': Site) {
    && |s.plans| <= |s'.plans| && (forall p | 0 <= p < |s.plans| :: s'.plans[p] == s.plans[p])
    && (forall p | |s.plans| <= p < |s'.plans| :: !s'.plans[p].consumed && s'.plans[p].bundle.None?)
    && |s.bundles| <= |s'.bundles| && (forall b | 0 <= b < |s.bundles| :: SameIdentity(s'.bundles[b], s.bundles[b]))
    && (forall b | |s.bundles| <= b < |s'.bundles| :: s'.bundles[b].plan.None?)
  }

  lemma AdmissionKeepsRows(s: Site, e: Event)
    requires e.Direct? || e.Recovery? || e.Store?
    ensures RowsKept(s, Next(s, e))
  {
  }

  /** A step of a worker or of the executor on one run. */
  predicate Works(e: Event) {
    e.Claim? || e.Recheck? || e.Persist? || e.Finish? || e.Moves?
  }

  lemma WorkStaysOnOne(s: Site, e: Event)
    requires Works(e)
    ensures Next(s, e) == s.(bundles := Next(s, e).bundles, wins := Next(s, e).wins)
    ensures |Next(s, e).bundles| == |s.bundles|
    ensures forall b | 0 <= b < |s.bundles| && b != e.bundle :: Next(s, e).bundles[b] == s.bundles[b]
  {
  }

  lemma ProgressKeepsIdentity(d: Definitions, b: Bundle, planned: bool, busy: bool)
    ensures SameIdentity(Rechecked(d, b), b) && SameIdentity(Persisted(d, b), b)
    ensures SameIdentity(Finished(b), b) && SameIdentity(Progressed(b, planned, busy), b)
  {
  }

  /** It changes that run's progress and nothing else, and never publishes it again. */
  lemma WorkOnOne(s: Site, e: Event)
    requires Works(e)
    ensures Next(s, e) == s.(bundles := Next(s, e).bundles, wins := Next(s, e).wins)
    ensures |Next(s, e).bundles| == |s.bundles|
    ensures forall b | 0 <= b < |s.bundles| && b != e.bundle :: Next(s, e).bundles[b] == s.bundles[b]
    ensures e.bundle < |s.bundles| ==>
      && SameIdentity(Next(s, e).bundles[e.bundle], s.bundles[e.bundle])
      && (s.bundles[e.bundle].phase != Published ==> Next(s, e).bundles[e.bundle].phase != Published)
  {
    WorkStaysOnOne(s, e);
    if e.bundle < |s.bundles| {
      ProgressKeepsIdentity(s.d, s.bundles[e.bundle], e.Moves? && e.planned, e.Moves? && e.busy);
    }
  }

  lemma WorkKeepsRows(s: Site, e: Event)
    requires Works(e)
    ensures RowsKept(s, Next(s, e))
  {
    WorkOnOne(s, e);
    var s' := Next(s, e);
    forall b | 0 <= b < |s.bundles| ensures SameIdentity(s'.bundles[b], s.bundles[b]) {
      if b != e.bundle { assert s'.bundles[b] == s.bundles[b]; }
    }
  }

  lemma OthersKeepRows(s: Site, e: Event)
    requires !e.Accept?
    ensures RowsKept(s, Next(s, e))
  {
    if e.Direct? || e.Recovery? || e.Store? {
      AdmissionKeepsRows(s, e);
    } else if Works(e) {
      WorkKeepsRows(s, e);
    }
  }

  lemma RowsKeepBinding(s: Site, s': Site)
    requires PlansBound(s) && RowsKept(s, s')
    ensures PlansBound(s')
  {
  }

  /** Plan p, not consumed before, is bound to a new run. */
  ghost predicate Binds(s: Site, s': Site, p: nat) {
    && p < |s.plans| && !s.plans[p].consumed
    && s'.plans == s.plans[p := s.plans[p].(consumed := true, bundle := Some(|s.bundles|))]
    && |s'.bundles| == |s.bundles| + 1 && s'.bundles[..|s.bundles|] == s.bundles
    && s'.bundles[|s.bundles|].plan == Some(p)
  }

  lemma AcceptBindsOrNot(s: Site, e: Event)
    requires e.Accept?
    ensures (Next(s, e).plans == s.plans && Next(s, e).bundles == s.bundles) || Binds(s, Next(s, e), e.plan)
  {
  }

  lemma BindsKeepsBinding(s: Site, s': Site, p: nat)
    requires PlansBound(s) && Binds(s, s', p)
    ensures PlansBound(s')
  {
    forall b | 0 <= b < |s.bundles| ensures s'.bundles[b] == s.bundles[b] {
      assert s'.bundles[..|s.bundles|][b] == s.bundles[b];
    }
  }

  lemma AcceptKeepsBinding(s: Site, e: Event)
    requires PlansBound(s) && e.Accept?
    ensures PlansBound(Next(s, e))
  {
    AcceptBindsOrNot(s, e);
    if Binds(s, Next(s, e), e.plan) {
      BindsKeepsBinding(s, Next(s, e), e.plan);
    }
  }

  lemma PlansBoundKept(s: Site, e: Event)
    requires PlansBound(s)
    ensures PlansBound(Next(s, e))
  {
    if e.Accept? {
      AcceptKeepsBinding(s, e);
    } else {
      OthersKeepRows(s, e);
      RowsKeepBinding(s, Next(s, e));
    }
  }

  /** Once bound, a plan keeps its run for good; before that only the binding changes. */
  lemma BindingKept(s: Site, e: Event, p: nat)
    requires PlansBound(s) && p < |s.plans|
    ensures p < |Next(s, e).plans|
    ensures s.plans[p].consumed ==> Next(s, e).plans[p] == s.plans[p]
    ensures Next(s, e).plans[p].(consumed := false, bundle := None) == s.plans[p].(consumed := false, bundle := None)
  {
    if !e.Accept? {
      OthersKeepRows(s, e);
    }
  }

  lemma NewAnswer(s: Site, e: Event)
    requires PlansBound(s) && Next(s, e).answers != s.answers
    ensures |Next(s, e).answers| == |s.answers| + 1
    ensures
      var a := Next(s, e).answers[|s.answers|];
      && Next(s, e).answers == s.answers + [a]
      && (a.PlanAnswer? ==>
            && a.plan < |s.plans| && a.plan < |Next(s, e).plans| && Next(s, e).plans[a.plan].bundle == Some(a.bundle)
            && (!a.already <==> !s.plans[a.plan].consumed))
  {
  }

  lemma PlansAnsweredKept(s: Site, e: Event)
    requires PlansBound(s) && PlansAnswered(s)
    ensures PlansAnswered(Next(s, e))
  {
    var s' := Next(s, e);
    forall p | 0 <= p < |s.plans| ensures p < |s'.plans| && (s.plans[p].consumed ==> s'.plans[p] == s.plans[p]) {
      BindingKept(s, e, p);
    }
    PlansBoundKept(s, e);
    if s'.answers != s.answers {
      NewAnswer(s, e);
      var a := s'.answers[|s.answers|];
      forall p: nat ensures FirstAnswers(s'.answers, p) <= 1 && (FirstAnswers(s'.answers, p) > 0 ==> p < |s'.plans| && s'.plans[p].consumed) {
        OneMoreAnswer(s.answers, a, p);
      }
    }
  }

  // ---- at most one forward run per user and request id ----

  /** No two forward runs of one user carry the same request id. */
  ghost predicate RequestsUnique(s: Site) {
    forall i, j | 0 <= i < j < |s.bundles| ::
      s.bundles[i].recovery || s.bundles[j].recovery || s.bundles[i].request.None?
      || s.bundles[i].user != s.bundles[j].user || s.bundles[i].request != s.bundles[j].request
  }

  function FirstDirect(answers: seq<Answer>, user: nat, request: nat): nat {
    if answers == [] then 0
    else
      var a := answers[|answers| - 1];
      FirstDirect(answers[..|answers| - 1], user, request)
      + if a.DirectAnswer? && a.user == user && a.request == request && !a.already then 1 else 0
  }

  ghost predicate Requested(bundles: seq<Bundle>, user: nat, request: nat) {
    exists b | 0 <= b < |bundles| :: SameRequest(bundles[b], user, request)
  }

  ghost predicate DirectAnswered(s: Site) {
    forall user: nat, request: nat ::
      FirstDirect(s.answers, user, request) <= (if Requested(s.bundles, user, request) then 1 else 0)
  }

  lemma IdentitiesKept(s: Site, e: Event)
    ensures |s.bundles| <= |Next(s, e).bundles|
    ensures forall b | 0 <= b < |s.bundles| :: SameIdentity(Next(s, e).bundles[b], s.bundles[b])
    ensures |Next(s, e).bundles| <= |s.bundles| + 1
  {
    if !e.Accept? {
      OthersKeepRows(s, e);
    }
  }

  lemma NewBundleRequest(s: Site, e: Event)
    requires |Next(s, e).bundles| > |s.bundles|
    ensures
      var b := Next(s, e).bundles[|s.bundles|];
      b.recovery || b.request.None? || !Requested(s.bundles, b.user, b.request.value)
  {
  }

  lemma RequestsUniqueKept(s: Site, e: Event)
    requires RequestsUnique(s)
    ensures RequestsUnique(Next(s, e))
  {
    var s' := Next(s, e);
    IdentitiesKept(s, e);
    if |s'.bundles| > |s.bundles| {
      NewBundleRequest(s, e);
      var n, b := |s.bundles|, s'.bundles[|s.bundles|];
      forall i | 0 <= i < n
        ensures s'.bundles[i].recovery || b.recovery || s'.bundles[i].request.None?
             || s'.bundles[i].user != b.user || s'.bundles[i].request != b.request
      {
        if b.request.Some? && SameRequest(s.bundles[i], b.user, b.request.value) {
          assert Requested(s.bundles, b.user, b.request.value);
        }
      }
    }
  }

  lemma OneMoreDirect(answers: seq<Answer>, a: Answer, user: nat, request: nat)
    ensures FirstDirect(answers + [a], user, request)
         == FirstDirect(answers, user, request)
            + if a.DirectAnswer? && a.user == user && a.request == request && !a.already then 1 else 0
  {
    assert (answers + [a])[..|answers|] == answers;
  }

  lemma NewDirectAnswer(s: Site, e: Event)
    requires Next(s, e).answers != s.answers
    ensures |Next(s, e).answers| == |s.answers| + 1
    ensures
      var a := Next(s, e).answers[|s.answers|];
      && Next(s, e).answers == s.answers + [a]
      && (a.DirectAnswer? && !a.already ==>
            !Requested(s.bundles, a.user, a.request) && Requested(Next(s, e).bundles, a.user, a.request))
  {
    var s' := Next(s, e);
    if e.Direct? && |s'.bundles| > |s.bundles| {
      assert SameRequest(s'.bundles[|s.bundles|], s.readings[e.reading].user, e.request);
    }
  }

  lemma DirectAnsweredKept(s: Site, e: Event)
    requires DirectAnswered(s)
    ensures DirectAnswered(Next(s, e))
  {
    var s' := Next(s, e);
    IdentitiesKept(s, e);
    if s'.answers != s.answers {
      NewDirectAnswer(s, e);
    }
    forall user: nat, request: nat
      ensures FirstDirect(s'.answers, user, request) <= (if Requested(s'.bundles, user, request) then 1 else 0)
    {
      RequestedKept(s, e, user, request);
      if s'.answers != s.answers {
        OneMoreDirect(s.answers, s'.answers[|s.answers|], user, request);
      }
    }
  }

  lemma RequestedKept(s: Site, e: Event, user: nat, request: nat)
    ensures Requested(s.bundles, user, request) ==> Requested(Next(s, e).bundles, user, request)
  {
    IdentitiesKept(s, e);
    if Requested(s.bundles, user, request) {
      var b :| 0 <= b < |s.bundles| && SameRequest(s.bundles[b], user, request);
      assert SameRequest(Next(s, e).bundles[b], user, request);
    }
  }

  /**
   A request id that already has a forward run is answered without starting anything. The answer names that run
   exactly when no recovery was admitted later under the same user and request id.
   */
  lemma ReplayNamesRun(s: Site, reading: nat, request: nat, cooled: bool, b: nat)
    requires reading < |s.readings| && s.readings[reading].read.Some?
    requires b < |s.bundles| && !s.bundles[b].recovery && SameRequest(s.bundles[b], s.readings[reading].user, request)
    requires RequestsUnique(s)
    requires Runs(s.readings[reading].source, s.readings[reading].body, s.readings[reading].read.value) != []
    ensures AdmitDirect(s, reading, request, cooled).s.bundles == s.bundles
    ensures AdmitDirect(s, reading, request, cooled).outcome.Replayed?
    ensures AdmitDirect(s, reading, request, cooled).outcome == Replayed(b)
       <==> (forall k | b < k < |s.bundles| :: !(s.bundles[k].recovery && SameRequest(s.bundles[k], s.readings[reading].user, request)))
  {
    var newest := NewestRequest(s.bundles, s.readings[reading].user, request);
    assert newest.Some? && newest.value >= b;
  }

  // ---- at most one worker per run ----

  ghost predicate ClaimsUnique(s: Site) {
    && (forall b: nat :: s.wins[b] <= 1)
    && (forall b: nat :: s.wins[b] > 0 ==> b < |s.bundles| && s.bundles[b].phase != Published)
  }

  lemma PhasesAdvance(s: Site, e: Event)
    ensures |s.bundles| <= |Next(s, e).bundles|
    ensures forall b | 0 <= b < |s.bundles| && s.bundles[b].phase != Published :: Next(s, e).bundles[b].phase != Published
  {
    if Works(e) {
      WorkOnOne(s, e);
    }
  }

  lemma OnlyClaimsWin(s: Site, e: Event)
    ensures Next(s, e).wins == s.wins
         || (e.Claim? && e.bundle < |s.bundles| && s.bundles[e.bundle].phase == Published
             && Next(s, e).wins == s.wins + multiset{e.bundle} && Next(s, e).bundles[e.bundle].phase == Preparing)
  {
  }

  lemma ClaimsUniqueKept(s: Site, e: Event)
    requires ClaimsUnique(s)
    ensures ClaimsUnique(Next(s, e))
  {
    PhasesAdvance(s, e);
    OnlyClaimsWin(s, e);
  }

  // ---- whole runs ----

  ghost predicate Good(s: Site) {
    Defs.WellFormed(s.d) && PlansBound(s) && PlansAnswered(s) && RequestsUnique(s) && DirectAnswered(s) && ClaimsUnique(s)
  }

  /** Nothing previewed, planned or run yet. */
  ghost predicate Start(s: Site) {
    Defs.WellFormed(s.d) && s.readings == [] && s.plans == [] && s.bundles == [] && s.answers == [] && s.wins == multiset{}
  }

  lemma StartIsGood(s: Site)
    requires Start(s)
    ensures Good(s)
  {
  }

  lemma StepKeeps(s: Site, e: Event)
    requires Good(s)
    ensures Good(Next(s, e))
  {
    if e.Edits? { Defs.EditWellFormed(s.d, e.edit); }
    PlansBoundKept(s, e);
    PlansAnsweredKept(s, e);
    RequestsUniqueKept(s, e);
    DirectAnsweredKept(s, e);
    ClaimsUniqueKept(s, e);
  }

  /**
   At most once, over every interleaving: a plan is consumed exactly when bound, every answer for it names that
   run, at most one starts it; each user and request id start at most one forward run; each run is claimed once.
   */
  lemma {:induction false} AtMostOnce(s: Site, es: seq<Event>)
    requires Good(s)
    ensures Good(After(s, es))
    decreases |es|
  {
    if es == [] {
    } else {
      StepKeeps(s, es[0]);
      AtMostOnce(Next(s, es[0]), es[1..]);
    }
  }

  /** The plan's confirmation creates its run now. */
  ghost predicate StartsRun(s: Site, e: Event) {
    (e.Accept? || e.Direct?) && |Next(s, e).bundles| > |s.bundles|
  }

  /**
   Every later confirmation with the plan's own credentials returns its run, starts nothing, and no expiry, revision
   or source change can prevent that.
   */
  lemma {:induction false} ReplaysReturnTheRun(s: Site, es: seq<Event>, plan: nat, valid: bool, aftermath: Aftermath)
    requires Good(s) && plan < |s.plans| && s.plans[plan].consumed
    ensures
      var p := s.plans[plan];
      var now := After(s, es);
      var c := AcceptPlan(now, plan, p.user, p.token, ScopeOf(p.source), valid, aftermath);
      c.outcome == Replayed(p.bundle.value) && c.s.bundles == now.bundles && c.s.plans == now.plans
    decreases |es|
  {
    if es == [] {
    } else {
      BindingKept(s, es[0], plan);
      StepKeeps(s, es[0]);
      ReplaysReturnTheRun(Next(s, es[0]), es[1..], plan, valid, aftermath);
    }
  }

  // ---- who may start a run, and when ----

  /** Apart from its binding, a stored plan never changes. */
  lemma {:induction false} PlanKept(s: Site, es: seq<Event>, p: nat)
    requires Good(s) && p < |s.plans|
    ensures p < |After(s, es).plans|
    ensures After(s, es).plans[p].(consumed := false, bundle := None) == s.plans[p].(consumed := false, bundle := None)
    decreases |es|
  {
    if es == [] {
    } else {
      BindingKept(s, es[0], p);
      StepKeeps(s, es[0]);
      PlanKept(Next(s, es[0]), es[1..], p);
    }
  }

  /** What a confirmation that starts a run has met. */
  lemma AcceptedAsStored(s: Site, e: Event)
    requires e.Accept? && StartsRun(s, e)
    ensures e.plan < |s.plans|
    ensures e.user == s.plans[e.plan].user && e.token == s.plans[e.plan].token && e.scope == ScopeOf(s.plans[e.plan].source)
    ensures s.clock < s.plans[e.plan].expires
  {
  }

  /**
   A previewed plan starts a run only for the user it was shown to, with the token it was shown with, for its own
   scope, and less than five minutes later.
   */
  lemma PreviewAuthority(s: Site, reading: nat, token: nat, es: seq<Event>, e: Event)
    requires Good(s) && reading < |s.readings| && |StorePlan(s, reading, token).plans| > |s.plans|
    requires e.Accept? && e.plan == |s.plans| && StartsRun(After(StorePlan(s, reading, token), es), e)
    ensures e.user == s.readings[reading].user && e.token == token && e.scope == ScopeOf(s.readings[reading].source)
    ensures After(StorePlan(s, reading, token), es).clock < s.clock + PREVIEW_SECONDS
  {
    var stored := StorePlan(s, reading, token);
    assert stored == Next(s, Store(reading, token));
    StepKeeps(s, Store(reading, token));
    PlanKept(stored, es, |s.plans|);
    AcceptedAsStored(After(stored, es), e);
  }

  /** A direct request starts a run only while the rule or saved mitigation has none unfinished. */
  lemma DirectStartsAlone(s: Site, e: Event, b: nat)
    requires e.Direct? && StartsRun(s, e) && b < |s.bundles|
    ensures !Occupies(s.bundles[b], Next(s, e).bundles[|s.bundles|].source)
    ensures !SameRequest(s.bundles[b], s.readings[e.reading].user, e.request)
  {
  }

  /** A run-once is read and started, then a recovery is admitted under the same request id. */
  function ForwardThenRecovery(user: nat, request: nat, a: Action): seq<Event> {
    [PreviewRunOnce(user, [a]), Read(0), Direct(0, request, true), Recovery(user, request, [a])]
  }

  lemma Unfold(s: Site, es: seq<Event>)
    requires |es| == 4
    ensures After(s, es) == Next(Next(Next(Next(s, es[0]), es[1]), es[2]), es[3])
  {
    assert After(s, es) == After(Next(s, es[0]), es[1..]);
    assert es[1..][1..] == es[2..] && es[2..][1..] == es[3..] && es[3..][1..] == [];
    assert After(Next(s, es[0]), es[1..]) == After(Next(Next(s, es[0]), es[1]), es[2..]);
    assert After(Next(Next(Next(s, es[0]), es[1]), es[2]), es[3..]) == Next(Next(Next(Next(s, es[0]), es[1]), es[2]), es[3]);
  }

  lemma OneEnabled(a: Action)
    requires a.enabled
    ensures EnabledOnly([a]) == [a]
  {
    assert [a][..0] == [] && [a][0] == a;
  }

  lemma RunOnceStarts(s: Site, user: nat, request: nat, a: Action)
    requires Start(s) && a.enabled
    ensures
      var started := Next(Next(Next(s, PreviewRunOnce(user, [a])), Read(0)), Direct(0, request, true));
      var r := Reading(user, RunOnce, [a], Some([]));
      && started.readings == [r] && started.bundles == [DirectBundle(r, request)]
      && started.answers == [DirectAnswer(user, request, 0, false)]
  {
    OneEnabled(a);
    var begun := Next(s, PreviewRunOnce(user, [a]));
    assert begun.readings == [Reading(user, RunOnce, [a], None)];
    var read := Next(begun, Read(0));
    assert read.readings == [Reading(user, RunOnce, [a], Some([]))] && read.bundles == [];
  }

  /** Run 0 is the forward run and run 1 the recovery; repeating the forward request is answered with run 1. */
  lemma RecoveryAnswersForRun(s: Site, user: nat, request: nat, a: Action)
    requires Start(s) && a.enabled
    ensures
      var now := After(s, ForwardThenRecovery(user, request, a));
      && |now.bundles| == 2 && !now.bundles[0].recovery && now.bundles[1].recovery
      && now.answers == [DirectAnswer(user, request, 0, false)]
      && AdmitDirect(now, 0, request, true).outcome == Replayed(1)
  {
    var es := ForwardThenRecovery(user, request, a);
    Unfold(s, es);
    OneEnabled(a);
    RunOnceStarts(s, user, request, a);
    var now := After(s, es);
    assert SameRequest(now.bundles[1], user, request);
  }
}
