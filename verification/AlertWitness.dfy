/**
 The retry budget is exceeded by exactly the interruptions: for every k there is a run from a fresh start in which one
 intent is attempted 5 + k times, k of them cut short, before it is given up on.
 */
module AlertWitness {
  import opened Options
  import opened Ranking
  import opened AlertTables
  import opened AlertProtocol
  import opened AlertSafety

  /** One alert exempt from pacing, and one enabled endpoint subscribed to everything. */
  function OneAlert(): Alert { Alert("reroute_failed", "info", Produced("reroute")) }

  function OneEndpoint(): Directory { Directory(map[], {}, {0}, {(0, None)}) }

  function World(now: Time, intents: map<nat, Intent>, deliveries: seq<Delivery>): Tables {
    Tables(now, map[0 := OneAlert()], intents, deliveries, 1, |intents|, OneEndpoint())
  }

  function Fresh(): State {
    State(World(0, map[], []), Resting,
          History(multiset{}, multiset{}, multiset{}, multiset{}, multiset{}, map[], 0, 0, 0, 0))
  }

  /** Between passes: the only intent is due after n attempts, k of them cut short and f failed. */
  ghost predicate Lone(s: State, n: nat, k: nat, f: nat) {
    && s.proc.Resting? && 0 in s.db.intents && s.db == World(s.db.now, map[0 := s.db.intents[0]], s.db.deliveries)
    && s.db.intents[0].alert == 0 && s.db.intents[0].target == Some(Endpoint(0))
    && s.db.intents[0].attempts == n && Eligible(s.db, 0)
    && SentRows(s.db.deliveries, 0) == 0
    && s.log.interrupted[0] == k && s.log.failures[0] == f
  }

  lemma Extend(s: State, ls: seq<Label>, l: Label)
    requires Runs(s, ls) && Enabled(After(s, ls), l)
    ensures Runs(s, ls + [l]) && After(s, ls + [l]) == Step(After(s, ls), l)
  {
    assert Runs(After(s, ls), [l]) by {
      assert [l][1..] == [];
    }
    RunsConcat(s, ls, [l]);
  }

  lemma NoneLowest(keys: Keyed, n: nat)
    requires keys == map[]
    ensures IsLowest(keys, n, [])
  {
  }

  lemma OneLowest(keys: Keyed, n: nat)
    requires keys.Keys == {0} && n > 0
    ensures IsLowest(keys, n, [0])
  {
    assert 0 in keys;
    assert forall y | y in keys :: !Less(keys[y], keys[0]);
    assert Below(keys, 0) == {};
  }

  /** The queries of a pass find exactly the one intent. */
  lemma QueriesFindIt(s: State, n: nat, k: nat, f: nat)
    requires Lone(s, n, k, f)
    ensures IsBatch(s.db, true, []) && IsBatch(s.db, false, [])
    ensures IsDue(s.db, true, []) && IsDue(s.db, false, [Snapshot(s.db, 0)])
  {
    assert HasIntents(s.db, 0) by { assert s.db.intents[0].alert == 0; }
    NoneLowest(UnmaterializedKeys(s.db, true), SlotsFor(true));
    NoneLowest(UnmaterializedKeys(s.db, false), SlotsFor(false));
    assert Ids([]) == [] && Ids([Snapshot(s.db, 0)]) == [0];
    NoneLowest(DueKeys(s.db, true), SlotsFor(true));
    assert DueKeys(s.db, false).Keys == {0};
    OneLowest(DueKeys(s.db, false), SlotsFor(false));
  }

  /** The first part of the pass: it finds and claims the intent. */
  function Finding(s: State): seq<Label>
    requires 0 in s.db.intents
  {
    [ReadBatch([], [])] + [ReadDue([], [Snapshot(s.db, 0)])] + [ClaimNext]
  }

  const CHECKING: seq<Label> := [CheckSent] + [CheckDedup] + [CheckRate] + [CheckMailer(true)] + [StartAttempt]

  function Claiming(s: State): Intent
    requires 0 in s.db.intents
  {
    s.db.intents[0].(token := Some(s.log.nextToken), claimedAt := Some(s.db.now))
  }

  /** The intent is in hand at the given stage, claimed under the next token. */
  ghost predicate InHand(s: State, t: State, row: Intent, stage: Stage)
    requires 0 in s.db.intents
  {
    && t.db == World(s.db.now, map[0 := row], s.db.deliveries)
    && t.proc == Working([], Snapshot(s.db, 0), s.log.nextToken, stage)
    && t.log == s.log.(nextToken := s.log.nextToken + 1)
  }

  lemma Queries(s: State, n: nat, k: nat, f: nat)
    requires Lone(s, n, k, f)
    ensures
      var ls := [ReadBatch([], [])] + [ReadDue([], [Snapshot(s.db, 0)])];
      Runs(s, ls) && After(s, ls) == s.(proc := Draining([Snapshot(s.db, 0)]))
  {
    QueriesFindIt(s, n, k, f);
    var it := Snapshot(s.db, 0);
    assert After(s, []) == s && [] + [it] == [it];
    Extend(s, [], ReadBatch([], []));
    assert [] + [ReadBatch([], [])] == [ReadBatch([], [])];
    Extend(s, [ReadBatch([], [])], ReadDue([], [it]));
  }

  lemma Finds(s: State, n: nat, k: nat, f: nat)
    requires Lone(s, n, k, f)
    ensures Runs(s, Finding(s)) && InHand(s, After(s, Finding(s)), Claiming(s), Claimed)
  {
    var ls := [ReadBatch([], [])] + [ReadDue([], [Snapshot(s.db, 0)])];
    Queries(s, n, k, f);
    assert s.db.intents == map[0 := s.db.intents[0]];
    Extend(s, ls, ClaimNext);
  }

  lemma Passes(s: State, t: State, n: nat, k: nat, f: nat)
    requires Lone(s, n, k, f) && InHand(s, t, Claiming(s), Claimed)
    ensures Runs(t, [CheckSent] + [CheckDedup] + [CheckRate])
    ensures InHand(s, After(t, [CheckSent] + [CheckDedup] + [CheckRate]), Claiming(s), Admitted)
  {
    assert After(t, []) == t;
    Extend(t, [], CheckSent);
    assert [] + [CheckSent] == [CheckSent];
    Extend(t, [CheckSent], CheckDedup);
    Extend(t, [CheckSent] + [CheckDedup], CheckRate);
  }

  /** Nothing stops an intent of an always-immediate alert to an endpoint. */
  lemma Checks(s: State, t: State, n: nat, k: nat, f: nat)
    requires Lone(s, n, k, f) && InHand(s, t, Claiming(s), Claimed)
    ensures Runs(t, CHECKING)
    ensures InHand(s, After(t, CHECKING), Claiming(s).(attempts := n + 1), Started)
  {
    Passes(s, t, n, k, f);
    var ls := [CheckSent] + [CheckDedup] + [CheckRate];
    Extend(t, ls, CheckMailer(true));
    assert InHand(s, After(t, ls + [CheckMailer(true)]), Claiming(s), Ready);
    Extend(t, ls + [CheckMailer(true)], StartAttempt);
  }

  /** The pass up to the moment before the send. */
  function Opening(s: State): seq<Label>
    requires 0 in s.db.intents
  {
    Finding(s) + CHECKING
  }

  lemma Opens(s: State, n: nat, k: nat, f: nat)
    requires Lone(s, n, k, f)
    ensures Runs(s, Opening(s)) && InHand(s, After(s, Opening(s)), Claiming(s).(attempts := n + 1), Started)
  {
    Finds(s, n, k, f);
    Checks(s, After(s, Finding(s)), n, k, f);
    RunsConcat(s, Finding(s), CHECKING);
  }

  // ---- an interrupted pass, a failed pass, and the last one ----

  /** The process stops while the message may be leaving, and starts again after the lease. */
  const INTERRUPTED: seq<Label> := [Crash] + [Wait(CLAIM_LEASE_SECS + 1)]

  lemma InterruptedPass(s: State, n: nat, k: nat, f: nat) returns (ls: seq<Label>)
    requires Lone(s, n, k, f)
    ensures Runs(s, ls) && Lone(After(s, ls), n + 1, k + 1, f)
  {
    Opens(s, n, k, f);
    var t := After(s, Opening(s));
    assert After(t, []) == t;
    Extend(t, [], Crash);
    assert [] + [Crash] == [Crash];
    Extend(t, [Crash], Wait(CLAIM_LEASE_SECS + 1));
    RunsConcat(s, Opening(s), INTERRUPTED);
    ls := Opening(s) + INTERRUPTED;
  }

  const FAILED: seq<Label> := [Send(false)] + [Record] + [Close] + [EndPass]

  /** The failed row is in, and the attempt of s is about to be closed. */
  ghost predicate Recorded(s: State, t: State, n: nat)
    requires 0 in s.db.intents
  {
    && t.proc.Working? && SentRows(t.db.deliveries, 0) == 0
    && InHand(s, t.(db := t.db.(deliveries := s.db.deliveries)), Claiming(s).(attempts := n + 1),
              Closing(if n + 1 >= MAX_DELIVERY_ATTEMPTS then GiveUp else RetryFailed))
  }

  /** The send fails, and the failed row decides how the attempt is closed. */
  lemma SendFails(s: State, t: State, n: nat, k: nat, f: nat)
    requires Lone(s, n, k, f) && InHand(s, t, Claiming(s).(attempts := n + 1), Started)
    ensures Runs(t, [Send(false)] + [Record])
    ensures Recorded(s, After(t, [Send(false)] + [Record]), n)
  {
    assert After(t, []) == t;
    Extend(t, [], Send(false));
    assert [] + [Send(false)] == [Send(false)];
    Extend(t, [Send(false)], Record);
    SentRowsAppend(t.db.deliveries, Delivery(0, 0, t.proc.it.target, FailedRow, t.db.now), 0);
  }

  /** After a failed pass: attempts and failures are one up, and the intent is to be retried or was given up on. */
  ghost predicate Failed(s: State, u: State, n: nat, k: nat, f: nat) {
    && u.proc.Resting? && u.db.now == s.db.now && u.log.interrupted[0] == k && u.log.failures[0] == f + 1
    && 0 in s.db.intents && 0 in u.db.intents && SentRows(u.db.deliveries, 0) == 0
    && u.db.intents[0].attempts == n + 1
    && if n + 1 >= MAX_DELIVERY_ATTEMPTS then u.db.intents[0].outcome == Some(PermanentFailure)
       else u.db == World(s.db.now,
                          map[0 := s.db.intents[0].(attempts := n + 1, state := Retry, token := None, claimedAt := None,
                                                    nextAttempt := s.db.now + RETRY_BACKOFF_SECS)],
                          u.db.deliveries)
  }

  lemma ClosesForRetry(s: State, t: State, n: nat, k: nat, f: nat)
    requires Lone(s, n, k, f) && Recorded(s, t, n) && n + 1 < MAX_DELIVERY_ATTEMPTS
    ensures Enabled(t, Close) && Step(t, Close).proc == Draining([]) && Failed(s, Step(t, Close).(proc := Resting), n, k, f)
  {
    assert t.db == World(s.db.now, map[0 := Claiming(s).(attempts := n + 1)], t.db.deliveries);
  }

  lemma ClosesForGood(s: State, t: State, n: nat, k: nat, f: nat)
    requires Lone(s, n, k, f) && Recorded(s, t, n) && n + 1 >= MAX_DELIVERY_ATTEMPTS
    ensures Enabled(t, Close) && Step(t, Close).proc == Draining([]) && Failed(s, Step(t, Close).(proc := Resting), n, k, f)
  {
    assert t.db == World(s.db.now, map[0 := Claiming(s).(attempts := n + 1)], t.db.deliveries);
  }

  lemma Closes(s: State, t: State, n: nat, k: nat, f: nat)
    requires Lone(s, n, k, f) && Recorded(s, t, n)
    ensures Runs(t, [Close] + [EndPass]) && Failed(s, After(t, [Close] + [EndPass]), n, k, f)
  {
    if n + 1 < MAX_DELIVERY_ATTEMPTS { ClosesForRetry(s, t, n, k, f); } else { ClosesForGood(s, t, n, k, f); }
    assert After(t, []) == t;
    Extend(t, [], Close);
    assert [] + [Close] == [Close];
    Extend(t, [Close], EndPass);
  }

  lemma Fails(s: State, t: State, n: nat, k: nat, f: nat)
    requires Lone(s, n, k, f) && InHand(s, t, Claiming(s).(attempts := n + 1), Started)
    ensures Runs(t, FAILED) && Failed(s, After(t, FAILED), n, k, f)
  {
    SendFails(s, t, n, k, f);
    Closes(s, After(t, [Send(false)] + [Record]), n, k, f);
    RunsConcat(t, [Send(false)] + [Record], [Close] + [EndPass]);
    assert [Send(false)] + [Record] + ([Close] + [EndPass]) == FAILED;
  }

  lemma FailedPass(s: State, n: nat, k: nat, f: nat) returns (ls: seq<Label>)
    requires Lone(s, n, k, f) && n + 1 < MAX_DELIVERY_ATTEMPTS
    ensures Runs(s, ls) && Lone(After(s, ls), n + 1, k, f + 1)
  {
    Opens(s, n, k, f);
    var t := After(s, Opening(s));
    Fails(s, t, n, k, f);
    RunsConcat(s, Opening(s), FAILED);
    Extend(s, Opening(s) + FAILED, Wait(RETRY_BACKOFF_SECS));
    ls := Opening(s) + FAILED + [Wait(RETRY_BACKOFF_SECS)];
  }

  lemma LastPass(s: State, n: nat, k: nat, f: nat) returns (ls: seq<Label>)
    requires Lone(s, n, k, f) && n + 1 >= MAX_DELIVERY_ATTEMPTS
    ensures Runs(s, ls)
    ensures
      var t := After(s, ls);
      && 0 in t.db.intents && t.db.intents[0].attempts == n + 1 && t.db.intents[0].outcome == Some(PermanentFailure)
      && t.log.interrupted[0] == k && t.log.failures[0] == f + 1
  {
    Opens(s, n, k, f);
    var t := After(s, Opening(s));
    Fails(s, t, n, k, f);
    RunsConcat(s, Opening(s), FAILED);
    ls := Opening(s) + FAILED;
  }

  // ---- the run ----

  lemma OneListener()
    ensures Lists([Endpoint(0)], Audience(OneEndpoint(), OneAlert()))
  {
    assert Audience(OneEndpoint(), OneAlert()) == {Endpoint(0)};
    assert Members([Endpoint(0)]) == {Endpoint(0)};
  }

  lemma FirstBatch()
    ensures IsBatch(Fresh().db, true, []) && IsBatch(Fresh().db, false, [0])
  {
    var t := Fresh().db;
    NoneLowest(UnmaterializedKeys(t, true), SlotsFor(true));
    assert UnmaterializedKeys(t, false).Keys == {0};
    OneLowest(UnmaterializedKeys(t, false), SlotsFor(false));
  }

  lemma Fanned()
    ensures Fanout(Fresh().db, 0, [Endpoint(0)]) == World(0, map[0 := NewIntent(0, Endpoint(0), 0)], [])
  {
    assert 0 in Span(0, 1);
    assert FreshRows(Fresh().db, 0, [Endpoint(0)]) == map[0 := NewIntent(0, Endpoint(0), 0)];
  }

  lemma FanOutStep(s: State)
    requires s == Fresh().(proc := Materializing([0]))
    ensures Enabled(s, Materialize([Endpoint(0)]))
    ensures Step(s, Materialize([Endpoint(0)]))
         == State(World(0, map[0 := NewIntent(0, Endpoint(0), 0)], []), Materializing([]), s.log)
  {
    OneListener();
    Fanned();
    assert [0][1..] == [];
  }

  lemma Materialized()
    ensures
      var s, ls := Fresh(), [ReadBatch([], [0])] + [Materialize([Endpoint(0)])];
      && Runs(s, ls)
      && After(s, ls) == State(World(0, map[0 := NewIntent(0, Endpoint(0), 0)], []), Materializing([]), s.log)
  {
    var s, l := Fresh(), ReadBatch([], [0]);
    FirstBatch();
    assert After(s, []) == s && [] + [0] == [0] && [] + [l] == [l];
    Extend(s, [], l);
    assert Step(s, l) == s.(proc := Materializing([0]));
    FanOutStep(Step(s, l));
    Extend(s, [l], Materialize([Endpoint(0)]));
  }

  lemma Begins() returns (ls: seq<Label>)
    ensures Initial(Fresh()) && Runs(Fresh(), ls) && Lone(After(Fresh(), ls), 0, 0, 0)
  {
    ls := [ReadBatch([], [0])] + [Materialize([Endpoint(0)])];
    Materialized();
    Extend(Fresh(), ls, Crash);
    ls := ls + [Crash];
  }

  /** Four failures and then k interruptions. */
  lemma {:induction false} AlmostGivenUp(k: nat) returns (ls: seq<Label>)
    ensures Initial(Fresh()) && Runs(Fresh(), ls)
    ensures Lone(After(Fresh(), ls), MAX_DELIVERY_ATTEMPTS - 1 + k, k, MAX_DELIVERY_ATTEMPTS - 1)
  {
    if k == 0 {
      ls := Begins();
      var n := 0;
      while n < MAX_DELIVERY_ATTEMPTS - 1
        invariant 0 <= n < MAX_DELIVERY_ATTEMPTS && Runs(Fresh(), ls) && Lone(After(Fresh(), ls), n, 0, n)
      {
        var more := FailedPass(After(Fresh(), ls), n, 0, n);
        RunsConcat(Fresh(), ls, more);
        ls, n := ls + more, n + 1;
      }
    } else {
      ls := AlmostGivenUp(k - 1);
      var more := InterruptedPass(After(Fresh(), ls), MAX_DELIVERY_ATTEMPTS - 2 + k, k - 1, MAX_DELIVERY_ATTEMPTS - 1);
      RunsConcat(Fresh(), ls, more);
      ls := ls + more;
    }
  }

  /**
   For every k, a reachable state in which an intent was given up on after 5 + k attempts, k of them cut short: five
   attempts are not a bound, and five plus the interrupted ones is attained.
   */
  lemma AttemptsReached(k: nat) returns (ls: seq<Label>, s: State)
    ensures Reached(Fresh(), ls, s) && 0 in s.db.intents
    ensures s.db.intents[0].attempts == MAX_DELIVERY_ATTEMPTS + k && s.log.interrupted[0] == k
    ensures s.log.failures[0] == MAX_DELIVERY_ATTEMPTS && s.db.intents[0].outcome == Some(PermanentFailure)
  {
    ls := AlmostGivenUp(k);
    var more := LastPass(After(Fresh(), ls), MAX_DELIVERY_ATTEMPTS - 1 + k, k, MAX_DELIVERY_ATTEMPTS - 1);
    RunsConcat(Fresh(), ls, more);
    ls := ls + more;
    s := After(Fresh(), ls);
  }
}
