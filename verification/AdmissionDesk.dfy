/** Confirmation, direct admission and the worker's claim as statements on the tables. */
module AdmissionDesk {
  import opened Options
  import opened DefinitionTables
  import opened AdmissionTables

  class Desk {
    var d: Definitions
    var readings: seq<Reading>
    var plans: seq<Plan>
    var bundles: seq<Bundle>
    var clock: int
    ghost var answers: seq<Answer>
    ghost var wins: multiset<nat>

    ghost function S(): Site
      reads this
    {
      Site(d, readings, plans, bundles, clock, answers, wins)
    }

    constructor (s: Site)
      ensures S() == s
    {
      d, readings, plans, bundles, clock := s.d, s.readings, s.plans, s.bundles, s.clock;
      answers, wins := s.answers, s.wins;
    }

    /** The plan row, once actor, token and scope match. */
    method FindPlan(plan: nat, user: nat, token: nat, scope: Scope) returns (row: Option<Plan>)
      ensures row ==
        if plan < |plans| && plans[plan].user == user && plans[plan].token == token && ScopeOf(plans[plan].source) == scope
        then Some(plans[plan]) else None
    {
      if plan >= |plans| { return None; }
      if plans[plan].user != user || plans[plan].token != token { return None; }
      if ScopeOf(plans[plan].source) != scope { return None; }
      return Some(plans[plan]);
    }

    /** INSERT INTO reroute_bundles, then UPDATE execution_plans SET consumed_at, bundle_id, then COMMIT. */
    method Bind(plan: nat) returns (bundle: nat)
      requires plan < |plans|
      modifies `plans, `bundles
      ensures bundle == |old(bundles)| && bundles == old(bundles) + [NewBundle(old(plans)[plan], plan)]
      ensures plans == old(plans)[plan := old(plans)[plan].(consumed := true, bundle := Some(bundle))]
    {
      bundle := |bundles|;
      bundles := bundles + [NewBundle(plans[plan], plan)];
      plans := plans[plan := plans[plan].(consumed := true, bundle := Some(bundle))];
    }

    /** Every router of the run is looked up: by transport_identities, or by the foreign key of its ledger row. */
    method AllEnrolled(runs: seq<Action>) returns (ok: bool)
      ensures ok <==> Enrolled(d, runs)
    {
      ok := true;
      for k := 0 to |runs|
        invariant ok <==> forall j | 0 <= j < k :: runs[j].device in d.devices
      {
        if runs[k].device !in d.devices { ok := false; }
      }
    }

    /** persist_actions: one ledger row per action in one transaction, so all of them or none. */
    method InsertLedger(bundle: nat) returns (ok: bool)
      requires bundle < |bundles|
      modifies `bundles
      ensures ok <==>
        Persistable(d, Runs(old(bundles)[bundle].source, old(bundles)[bundle].body, old(bundles)[bundle].read))
      ensures bundles == old(bundles)[bundle := old(bundles)[bundle].(ledger := ok || old(bundles)[bundle].ledger)]
    {
      var b := bundles[bundle];
      var runs := Runs(b.source, b.body, b.read);
      if runs == [] { return false; }
      ok := AllEnrolled(runs);
      if ok { bundles := bundles[bundle := b.(ledger := true)]; }
    }

    /** UPDATE reroute_bundles SET state = 'failed'. */
    method Settle(bundle: nat)
      requires bundle < |bundles|
      modifies `bundles
      ensures bundles == old(bundles)[bundle := old(bundles)[bundle].(planned := false)]
    {
      bundles := bundles[bundle := bundles[bundle].(planned := false)];
    }

    /** From the commit of the confirmation to its answer, under the same policy fence. */
    method Admit(plan: nat, bundle: nat, aftermath: Aftermath) returns (outcome: Outcome)
      requires bundle < |bundles| && !bundles[bundle].ledger && bundles[bundle].planned
      modifies `bundles, `answers
      ensures
        var b := old(bundles)[bundle];
        var written := (aftermath.Admits? || aftermath.written) && Persistable(d, Runs(b.source, b.body, b.read));
        var refused := aftermath.Refuses? || (aftermath.Admits? && !written);
        && bundles == old(bundles)[bundle := b.(planned := !refused, ledger := written)]
        && answers == (if refused || aftermath.Dies? then old(answers) else old(answers) + [PlanAnswer(plan, bundle, false)])
        && outcome ==
           if refused then NotAdmitted(bundle) else if aftermath.Dies? then Unanswered(bundle) else Admitted(bundle)
    {
      var ok := false;
      if aftermath.Admits? || aftermath.written { ok := InsertLedger(bundle); }
      if aftermath.Dies? { return Unanswered(bundle); }
      if aftermath.Refuses? || !ok {
        Settle(bundle);
        return NotAdmitted(bundle);
      }
      answers := answers + [PlanAnswer(plan, bundle, false)];
      outcome := Admitted(bundle);
    }

    method Accept(plan: nat, user: nat, token: nat, scope: Scope, valid: bool, aftermath: Aftermath) returns (outcome: Outcome)
      modifies this
      ensures Confirmed(S(), outcome) == AcceptPlan(old(S()), plan, user, token, scope, valid, aftermath)
    {
      var row := FindPlan(plan, user, token, scope);
      if row.None? { return Declined; }
      if row.value.consumed {
        if row.value.bundle.None? { return Declined; }
        answers := answers + [PlanAnswer(plan, row.value.bundle.value, true)];
        return Replayed(row.value.bundle.value);
      }
      if row.value.expires <= clock { return Declined; }
      if !SourceCurrent(d, row.value.source) { return Declined; }
      if !valid { return Declined; }
      var bundle := Bind(plan);
      outcome := Admit(plan, bundle, aftermath);
    }

    method Direct(reading: nat, request: nat, cooled: bool) returns (outcome: Outcome)
      modifies this
      ensures Confirmed(S(), outcome) == AdmitDirect(old(S()), reading, request, cooled)
    {
      if reading >= |readings| || readings[reading].read.None? { return Declined; }
      var r := readings[reading];
      if Runs(r.source, r.body, r.read.value) == [] { return Declined; }
      var duplicate := NewestRequest(bundles, r.user, request);
      if duplicate.Some? {
        answers := answers + [DirectAnswer(r.user, request, duplicate.value, true)];
        return Replayed(duplicate.value);
      }
      if !SourceCurrent(d, r.source) { return Declined; }
      var active := NewestActive(bundles, r.source);
      if active.Some? {
        answers := answers + [DirectAnswer(r.user, request, active.value, true)];
        return Replayed(active.value);
      }
      if !cooled { return Declined; }
      answers := answers + [DirectAnswer(r.user, request, |bundles|, false)];
      outcome := Admitted(|bundles|);
      bundles := bundles + [DirectBundle(r, request)];
    }

    /** UPDATE ... SET phase = 'preparing' WHERE id = ? AND planned AND phase = 'published'; the worker goes on iff a row changed. */
    method Claim(bundle: nat) returns (won: bool)
      modifies `bundles, `wins
      ensures S() == ClaimBundle(old(S()), bundle)
      ensures won <==> S() != old(S())
    {
      won := bundle < |bundles| && bundles[bundle].planned && bundles[bundle].phase == Published;
      if won {
        bundles := bundles[bundle := bundles[bundle].(phase := Preparing)];
        wins := wins + multiset{bundle};
      }
    }

    /** The second check of a claimed run; a failure settles it. */
    method Recheck(bundle: nat)
      modifies `bundles
      ensures S() == Next(old(S()), AdmissionTables.Recheck(bundle))
    {
      if bundle >= |bundles| || !bundles[bundle].planned || bundles[bundle].phase != Preparing { return; }
      var b := bundles[bundle];
      var enrolled := AllEnrolled(Runs(b.source, b.body, b.read));
      if SourceCurrent(d, b.source) && enrolled {
        bundles := bundles[bundle := b.(phase := Checked)];
      } else {
        Settle(bundle);
      }
    }

    /** The ledger of a checked run; a failure settles it. */
    method Persist(bundle: nat)
      modifies `bundles
      ensures S() == Next(old(S()), AdmissionTables.Persist(bundle))
    {
      if bundle >= |bundles| || bundles[bundle].phase != Checked { return; }
      var ok := InsertLedger(bundle);
      if ok {
        bundles := bundles[bundle := bundles[bundle].(phase := Stored)];
      } else {
        Settle(bundle);
      }
    }

    /** UPDATE ... SET phase = 'prepared' WHERE id = ? AND state = 'planned'. */
    method Finish(bundle: nat)
      modifies `bundles
      ensures S() == Next(old(S()), AdmissionTables.Finish(bundle))
    {
      if bundle < |bundles| && bundles[bundle].planned && bundles[bundle].phase == Stored {
        bundles := bundles[bundle := bundles[bundle].(phase := Prepared)];
      }
    }
  }
}
