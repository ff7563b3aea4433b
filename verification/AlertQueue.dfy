/**
 A due intent is claimed after a bounded number of completed passes, whatever else is due, fails, is interrupted or arrives:
 whatever is ahead of it in its severity class is closed or moves behind it, and nothing new gets ahead.
 */
module AlertQueue {
  import opened Options
  import opened Ranking
  import opened AlertTables
  import opened AlertProtocol
  import opened AlertSafety
  import opened AlertFairness
  import opened AlertDrain

  // ---- alerts of a class are materialized in the order of their ids ----

  ghost predicate InOrder(t: Tables) {
    forall a, b | a in t.alerts && b in t.alerts && a < b && t.alerts[a].Critical() == t.alerts[b].Critical()
      && HasIntents(t, b) :: HasIntents(t, a)
  }

  /** Every older alert of the class without intents comes before this one in the batch. */
  ghost predicate BatchOrdered(s: State) {
    s.proc.Materializing? ==>
      forall k, a | 0 <= k < |s.proc.batch| && a in s.db.alerts && s.proc.batch[k] in s.db.alerts
        && a < s.proc.batch[k] && s.db.alerts[a].Critical() == s.db.alerts[s.proc.batch[k]].Critical() && !HasIntents(s.db, a)
        :: a in s.proc.batch[..k]
  }

  lemma FirstIsOldest(s: State, l: Label, a: nat)
    requires BatchOrdered(s) && Enabled(s, l) && l.Materialize? && a in s.db.alerts && a < s.proc.batch[0]
    requires s.db.alerts[a].Critical() == s.db.alerts[s.proc.batch[0]].Critical()
    ensures HasIntents(s.db, a)
  {
    assert s.proc.batch[..0] == [];
  }

  lemma OthersHaveSame(s: State, l: Label, a: nat)
    requires Inv(s) && Enabled(s, l) && (l.Materialize? ==> s.proc.batch[0] != a)
    ensures HasIntents(Step(s, l).db, a) <==> HasIntents(s.db, a)
  {
    OneStepFrozen(s, l, a);
  }

  lemma HasIntentsGrows(s: State, l: Label, a: nat)
    requires Inv(s) && Enabled(s, l) && HasIntents(s.db, a)
    ensures HasIntents(Step(s, l).db, a)
  {
    OneStepFrozen(s, l, a);
  }

  lemma NoIntentsYet(s: State, l: Label, a: nat)
    requires Inv(s) && Enabled(s, l) && a !in s.db.alerts
    ensures !HasIntents(Step(s, l).db, a)
  {
    OthersHaveSame(s, l, a);
  }

  lemma OrderKept(s: State, l: Label)
    requires Inv(s) && InOrder(s.db) && BatchOrdered(s) && Enabled(s, l)
    ensures InOrder(Step(s, l).db)
  {
    var t, t' := s.db, Step(s, l).db;
    AlertsGrow(s, l);
    forall a, b | a in t'.alerts && b in t'.alerts && a < b && t'.alerts[a].Critical() == t'.alerts[b].Critical()
      && HasIntents(t', b)
      ensures HasIntents(t', a)
    {
      if b !in t.alerts { NoIntentsYet(s, l, b); }
      if l.Materialize? && b == s.proc.batch[0] {
        FirstIsOldest(s, l, a);
      } else {
        OthersHaveSame(s, l, b);
      }
      HasIntentsGrows(s, l, a);
    }
  }

  /** What is served ahead of a row, by the order of the keys. */
  lemma ServedInOrder(keys: Keyed, n: nat, r: seq<nat>, k: nat, a: nat)
    requires OwnIds(keys) && IsLowest(keys, n, r) && k < |r| && a in keys && Less(keys[a], keys[r[k]])
    ensures a in r[..k]
  {
    assert r[k] in r;
    SubsetSize(Below(keys, a), Below(keys, r[k]));
    assert a in r;
    var j :| 0 <= j < |r| && r[j] == a;
    assert r[..k][j] == a;
  }

  lemma BatchReadInOrder(s: State, l: Label)
    requires Enabled(s, l) && l.ReadBatch?
    ensures BatchOrdered(Step(s, l))
  {
    var t, c, batch := s.db, |l.critical|, l.critical + l.normal;
    forall k, a | 0 <= k < |batch| && a in t.alerts && batch[k] in t.alerts && a < batch[k]
      && t.alerts[a].Critical() == t.alerts[batch[k]].Critical() && !HasIntents(t, a)
      ensures a in batch[..k]
    {
      if k < c {
        assert l.critical[k] in l.critical;
        ServedInOrder(UnmaterializedKeys(t, true), SlotsFor(true), l.critical, k, a);
        assert batch[..k] == l.critical[..k];
      } else {
        assert l.normal[k - c] in l.normal;
        ServedInOrder(UnmaterializedKeys(t, false), SlotsFor(false), l.normal, k - c, a);
        assert batch[..k] == l.critical + l.normal[..k - c];
      }
    }
  }

  lemma BatchOrderKept(s: State, l: Label)
    requires Inv(s) && BatchOrdered(s) && Enabled(s, l)
    ensures BatchOrdered(Step(s, l))
  {
    var s' := Step(s, l);
    if l.ReadBatch? {
      BatchReadInOrder(s, l);
    } else if s'.proc.Materializing? {
      BatchMoves(s, l);
      AlertsGrow(s, l);
      var skip := if l.Materialize? then 1 else 0;
      forall k, a | 0 <= k < |s'.proc.batch| && a in s'.db.alerts && s'.proc.batch[k] in s'.db.alerts && a < s'.proc.batch[k]
        && s'.db.alerts[a].Critical() == s'.db.alerts[s'.proc.batch[k]].Critical() && !HasIntents(s'.db, a)
        ensures a in s'.proc.batch[..k]
      {
        OlderStillListed(s, l, k + skip, a);
        assert s.proc.batch[..k + skip][skip..] == s'.proc.batch[..k];
      }
    }
  }

  lemma OlderStillListed(s: State, l: Label, k: nat, a: nat)
    requires Inv(s) && BatchOrdered(s) && Enabled(s, l) && s.proc.Materializing? && k < |s.proc.batch|
    requires a in Step(s, l).db.alerts && s.proc.batch[k] in Step(s, l).db.alerts && a < s.proc.batch[k]
    requires Step(s, l).db.alerts[a].Critical() == Step(s, l).db.alerts[s.proc.batch[k]].Critical()
    requires !HasIntents(Step(s, l).db, a)
    ensures a in s.proc.batch[..k] && (l.Materialize? ==> a != s.proc.batch[0])
  {
    AlertsGrow(s, l);
    if l.Materialize? { FanoutIsWhole(s.db, s.proc.batch[0], l.targets); }
    if HasIntents(s.db, a) { HasIntentsGrows(s, l, a); }
  }

  // ---- what is ahead of a due intent ----

  function KeyOf(t: Tables, i: nat): Key
    requires i in t.intents
  {
    Key(t.intents[i].nextAttempt, t.intents[i].alert, i)
  }

  predicate SameClass(t: Tables, a: nat, b: nat) {
    a in t.alerts && b in t.alerts && t.alerts[a].Critical() == t.alerts[b].Critical()
  }

  /** The open intents of its class with a lower key, due or not, leased or not. */
  function Ahead(t: Tables, i: nat): set<nat>
    requires i in t.intents
  {
    set j | j in t.intents && t.intents[j].Open() && SameClass(t, t.intents[j].alert, t.intents[i].alert)
      && Less(KeyOf(t, j), KeyOf(t, i))
  }

  /** Due, under no lease, and not the one in hand. */
  predicate Waits(s: State, i: nat) {
    i in s.db.intents && s.db.intents[i].alert in s.db.alerts && Eligible(s.db, i) && !At(s, i)
  }

  ghost predicate Ordered(s: State) { Inv(s) && InOrder(s.db) && BatchOrdered(s) && QueueEligible(s) }

  lemma OrderedKept(s: State, l: Label)
    requires Ordered(s) && Enabled(s, l)
    ensures Ordered(Step(s, l))
  {
    StepKeeps(s, l);
    OrderKept(s, l);
    BatchOrderKept(s, l);
    EligibleKept(s, l);
  }

  predicate ClaimsIt(s: State, l: Label, i: nat) {
    l.ClaimNext? && s.proc.Draining? && s.proc.due != [] && s.proc.due[0].id == i
  }

  lemma WaitsOn(s: State, l: Label, i: nat)
    requires Inv(s) && Enabled(s, l) && Waits(s, i) && !ClaimsIt(s, l, i)
    ensures Waits(Step(s, l), i) && Step(s, l).db.intents[i] == s.db.intents[i]
  {
    RowElsewhere(s, l, i);
    RowTimeGrows(s, l);
    AlertsGrow(s, l);
    if Step(s, l).proc.Working? { WorkStarts(s, l); }
  }

  /** A row in hand keeps its place, is settled, or moves five minutes ahead. */
  lemma FocusMoves(s: State, l: Label, j: nat)
    requires j in s.db.intents && Enabled(s, l) && Focus(s, l) == Some(j) && j in Step(s, l).db.intents
    ensures Step(s, l).db.intents[j].nextAttempt == s.db.intents[j].nextAttempt
         || Step(s, l).db.intents[j].nextAttempt == s.db.now + RETRY_BACKOFF_SECS
  {
  }

  /** A new intent of the class belongs to a younger alert and is due no earlier than now. */
  lemma NewComesLater(s: State, l: Label, i: nat, j: nat)
    requires Ordered(s) && Enabled(s, l) && Waits(s, i) && j !in s.db.intents && j in Step(s, l).db.intents
    requires SameClass(Step(s, l).db, Step(s, l).db.intents[j].alert, s.db.intents[i].alert)
    ensures !Less(KeyOf(Step(s, l).db, j), KeyOf(s.db, i))
  {
    FocusKnown(s, l);
    OnlyMaterializeCreates(s, l, j);
    FreshRow(s, l, j);
    AlertsGrow(s, l);
    assert HasIntents(s.db, s.db.intents[i].alert);
    assert !HasIntents(s.db, s.proc.batch[0]);
  }

  lemma AheadShrinks(s: State, l: Label, i: nat)
    requires Ordered(s) && Enabled(s, l) && Waits(s, i) && !ClaimsIt(s, l, i)
    ensures i in Step(s, l).db.intents && Ahead(Step(s, l).db, i) <= Ahead(s.db, i)
  {
    var t, t' := s.db, Step(s, l).db;
    WaitsOn(s, l, i);
    AlertsGrow(s, l);
    forall j | j in Ahead(t', i) ensures j in Ahead(t, i) {
      if j !in t.intents {
        NewComesLater(s, l, i, j);
      } else {
        IdentitiesKept(s, l, j);
        if Focus(s, l) == Some(j) { FocusMoves(s, l, j); } else { RowElsewhere(s, l, j); }
      }
    }
  }

  // ---- what a pass still has in hand ----

  function QueueIds(q: seq<DueIntent>): set<nat> { set d | d in q :: d.id }

  function Hands(p: Proc): set<nat> {
    QueueIds(Queue(p)) + if p.Working? then {p.it.id} else {}
  }

  predicate Draws(p: Proc) { p.Draining? || p.Working? }

  function SlotsOf(t: Tables, i: nat): (r: nat)
    requires i in t.intents && t.intents[i].alert in t.alerts
    ensures r == CRITICAL_SLOTS || r == NORMAL_SLOTS
  {
    SlotsFor(t.alerts[t.intents[i].alert].Critical())
  }

  /** A pass that left the intent out serves at most one slot's worth of those ahead of it. */
  predicate QueueFair(s: State, i: nat)
    requires i in s.db.intents && s.db.intents[i].alert in s.db.alerts
  {
    Draws(s.proc) && i !in Hands(s.proc) ==> |Ahead(s.db, i) * Hands(s.proc)| <= SlotsOf(s.db, i)
  }

  function FullSlots(n: nat, slots: nat): nat
    requires slots > 0
  {
    n / slots
  }

  /** An upper bound on the completed passes the intent still has to wait for. */
  function Passes(s: State, i: nat): nat
    requires i in s.db.intents && s.db.intents[i].alert in s.db.alerts
  {
    if Draws(s.proc) && i !in Hands(s.proc) then FullSlots(|Ahead(s.db, i) - Hands(s.proc)|, SlotsOf(s.db, i)) + 2
    else FullSlots(|Ahead(s.db, i)|, SlotsOf(s.db, i)) + 1
  }

  lemma ClaimKeepsHands(s: State)
    requires QueueEligible(s) && Enabled(s, ClaimNext)
    ensures Hands(Step(s, ClaimNext).proc) == Hands(s.proc)
  {
    ClaimSucceeds(s);
    var q := s.proc.due;
    assert q == [q[0]] + q[1..];
  }

  lemma CloseEmptiesHands(s: State)
    requires Inv(s) && Enabled(s, Close)
    ensures Hands(Step(s, Close).proc) == Hands(s.proc) - {s.proc.it.id}
  {
    assert forall k | 0 <= k < |s.proc.due| :: s.proc.due[k].id != s.proc.it.id;
  }

  /** What is closed is no longer ahead: it is settled, or due in five minutes. */
  lemma ClosedIsBehind(s: State, i: nat)
    requires Inv(s) && Enabled(s, Close) && Waits(s, i)
    ensures i in Step(s, Close).db.intents && s.proc.it.id !in Ahead(Step(s, Close).db, i)
  {
    WaitsOn(s, Close, i);
    assert AccountOk(AccountOf(s, s.proc.it.id), s.log.nextToken);
    ClosedMoves(s);
  }

  lemma ClosedMoves(s: State)
    requires Enabled(s, Close) && HoldsOpen(s.db, s.proc.it.id, s.proc.token)
    ensures s.proc.it.id in Step(s, Close).db.intents
    ensures var r := Step(s, Close).db.intents[s.proc.it.id]; !r.Open() || r.nextAttempt == s.db.now + RETRY_BACKOFF_SECS
  {
  }

  lemma OtherHandsSame(s: State, l: Label)
    requires Enabled(s, l) && Draws(s.proc) && Draws(Step(s, l).proc) && !l.ClaimNext? && !l.Close?
    ensures Hands(Step(s, l).proc) == Hands(s.proc)
  {
  }

  /** Inside a pass, what is ahead and not in hand never grows. */
  lemma DrawingOn(s: State, l: Label, i: nat)
    requires Ordered(s) && Enabled(s, l) && Waits(s, i) && !ClaimsIt(s, l, i) && Draws(s.proc) && Draws(Step(s, l).proc)
    ensures i in Step(s, l).db.intents
    ensures Hands(Step(s, l).proc) <= Hands(s.proc) && (i in Hands(s.proc) ==> i in Hands(Step(s, l).proc))
    ensures Ahead(Step(s, l).db, i) - Hands(Step(s, l).proc) <= Ahead(s.db, i) - Hands(s.proc)
    ensures Ahead(Step(s, l).db, i) * Hands(Step(s, l).proc) <= Ahead(s.db, i) * Hands(s.proc)
  {
    AheadShrinks(s, l, i);
    if l.ClaimNext? {
      ClaimKeepsHands(s);
    } else if l.Close? {
      CloseEmptiesHands(s);
      ClosedIsBehind(s, i);
    } else {
      OtherHandsSame(s, l);
    }
  }

  lemma DueIds(due: seq<DueIntent>)
    ensures QueueIds(due) == AsSet(Ids(due))
  {
    forall d | d in due ensures d.id in AsSet(Ids(due)) {
      var k :| 0 <= k < |due| && due[k] == d;
      assert Ids(due)[k] == d.id;
    }
    forall x | x in AsSet(Ids(due)) ensures x in QueueIds(due) {
      var k :| 0 <= k < |due| && Ids(due)[k] == x;
      assert due[k] in due;
    }
  }

  lemma DueIsAhead(t: Tables, i: nat)
    requires i in t.intents && t.intents[i].alert in t.alerts && Eligible(t, i)
    ensures
      var keys := DueKeys(t, t.alerts[t.intents[i].alert].Critical());
      i in keys && Below(keys, i) <= Ahead(t, i)
  {
  }

  lemma OtherClassNotAhead(t: Tables, critical: bool, due: seq<DueIntent>, i: nat)
    requires IsDue(t, critical, due) && i in t.intents && t.intents[i].alert in t.alerts
    requires t.alerts[t.intents[i].alert].Critical() != critical
    ensures QueueIds(due) !! Ahead(t, i) && i !in QueueIds(due)
  {
    forall d | d in due ensures d.id !in Ahead(t, i) && d.id != i {
      var k :| 0 <= k < |due| && due[k] == d;
      DueMember(t, critical, due, k);
    }
  }

  /** The due query leaves an intent out only when a full slot of those ahead of it is served. */
  lemma DueServes(t: Tables, due: seq<DueIntent>, i: nat)
    requires i in t.intents && t.intents[i].alert in t.alerts && Eligible(t, i)
    requires IsDue(t, t.alerts[t.intents[i].alert].Critical(), due) && i !in QueueIds(due)
    ensures QueueIds(due) <= Ahead(t, i) && |QueueIds(due)| == SlotsOf(t, i)
  {
    var c := t.alerts[t.intents[i].alert].Critical();
    var keys, mine := DueKeys(t, c), Ids(due);
    DueIds(due);
    DueIsAhead(t, i);
    UnservedWaitsBehind(keys, SlotsFor(c), mine, i);
    Partition(Below(keys, i), AsSet(mine));
  }

  lemma Partition(all: set<nat>, part: set<nat>)
    requires part <= all
    ensures |all| == |all - part| + |part|
  {
    assert all == (all - part) + part;
  }

  lemma JoinIds(u: seq<DueIntent>, o: seq<DueIntent>)
    ensures QueueIds(u + o) == QueueIds(u) + QueueIds(o)
  {
  }

  /** The ids of both classes in the list, seen from one of them. */
  lemma DueHands(s: State, l: Label, i: nat) returns (mine: seq<DueIntent>)
    requires Enabled(s, l) && l.ReadDue? && Waits(s, i)
    ensures IsDue(s.db, s.db.alerts[s.db.intents[i].alert].Critical(), mine)
    ensures Ahead(s.db, i) * Hands(Step(s, l).proc) == Ahead(s.db, i) * QueueIds(mine)
    ensures Ahead(s.db, i) - Hands(Step(s, l).proc) == Ahead(s.db, i) - QueueIds(mine)
    ensures i in Hands(Step(s, l).proc) <==> i in QueueIds(mine)
  {
    var c := s.db.alerts[s.db.intents[i].alert].Critical();
    mine := if c then l.urgent else l.other;
    JoinIds(l.urgent, l.other);
    OtherClassNotAhead(s.db, !c, if c then l.other else l.urgent, i);
  }

  lemma OneSlotLess(ahead: set<nat>, served: set<nat>, slots: nat)
    requires (slots == CRITICAL_SLOTS || slots == NORMAL_SLOTS) && served <= ahead && |served| == slots
    ensures |ahead * served| == slots
    ensures FullSlots(|ahead - served|, slots) + 1 == FullSlots(|ahead|, slots)
  {
    assert ahead * served == served;
    Parts(ahead, served);
    Divide(|ahead|, |ahead|, slots);
  }

  lemma DueReadFair(s: State, l: Label, i: nat)
    requires Enabled(s, l) && l.ReadDue? && Waits(s, i)
    ensures QueueFair(Step(s, l), i) && Passes(Step(s, l), i) <= Passes(s, i)
  {
    var mine := DueHands(s, l, i);
    if i !in QueueIds(mine) {
      DueServes(s.db, mine, i);
      OneSlotLess(Ahead(s.db, i), QueueIds(mine), SlotsOf(s.db, i));
    }
  }

  lemma SlotsSame(s: State, l: Label, i: nat)
    requires Inv(s) && Enabled(s, l) && Waits(s, i) && !ClaimsIt(s, l, i)
    ensures Waits(Step(s, l), i) && SlotsOf(Step(s, l).db, i) == SlotsOf(s.db, i)
  {
    WaitsOn(s, l, i);
    AlertsGrow(s, l);
  }

  /** Inside a pass. */
  lemma FallDrawing(s: State, l: Label, i: nat)
    requires Ordered(s) && Enabled(s, l) && Waits(s, i) && QueueFair(s, i) && !ClaimsIt(s, l, i)
    requires !l.ReadDue? && Draws(Step(s, l).proc) && Waits(Step(s, l), i)
    ensures QueueFair(Step(s, l), i) && Passes(Step(s, l), i) + Ended(l) <= Passes(s, i)
  {
    var s', slots := Step(s, l), SlotsOf(s.db, i);
    SlotsSame(s, l, i);
    DrawsBefore(s, l);
    AheadShrinks(s, l, i);
    DrawingOn(s, l, i);
    var ahead, ahead' := Ahead(s.db, i), Ahead(s'.db, i);
    SubsetSize(ahead', ahead);
    Divide(|ahead'|, |ahead|, slots);
    SubsetSize(ahead' - Hands(s'.proc), ahead - Hands(s.proc));
    SubsetSize(ahead' * Hands(s'.proc), ahead * Hands(s.proc));
    Divide(|ahead' - Hands(s'.proc)|, |ahead - Hands(s.proc)|, slots);
  }

  /** Outside one, or leaving one at its end or by a crash. */
  lemma FallOutside(s: State, l: Label, i: nat)
    requires Ordered(s) && Enabled(s, l) && Waits(s, i) && QueueFair(s, i) && !ClaimsIt(s, l, i)
    requires !Draws(Step(s, l).proc) && Waits(Step(s, l), i)
    ensures QueueFair(Step(s, l), i) && Passes(Step(s, l), i) + Ended(l) <= Passes(s, i)
  {
    var slots := SlotsOf(s.db, i);
    SlotsSame(s, l, i);
    AheadShrinks(s, l, i);
    var ahead, ahead' := Ahead(s.db, i), Ahead(Step(s, l).db, i);
    SubsetSize(ahead', ahead);
    Divide(|ahead'|, |ahead|, slots);
    if Draws(s.proc) && i !in Hands(s.proc) {
      Parts(ahead, Hands(s.proc));
      Divide(|ahead'|, |ahead - Hands(s.proc)|, slots);
    }
    if l.EndPass? { assert Hands(s.proc) == {} && ahead - {} == ahead; }
  }

  lemma PassesFall(s: State, l: Label, i: nat)
    requires Ordered(s) && Enabled(s, l) && Waits(s, i) && QueueFair(s, i) && !ClaimsIt(s, l, i)
    ensures Waits(Step(s, l), i)
    ensures QueueFair(Step(s, l), i) && Passes(Step(s, l), i) + Ended(l) <= Passes(s, i)
  {
    WaitsOn(s, l, i);
    if l.ReadDue? {
      DueReadFair(s, l, i);
    } else if Draws(Step(s, l).proc) {
      FallDrawing(s, l, i);
    } else {
      FallOutside(s, l, i);
    }
  }

  lemma DrawsBefore(s: State, l: Label)
    requires Enabled(s, l) && !l.ReadDue? && Draws(Step(s, l).proc)
    ensures Draws(s.proc) && !l.EndPass?
  {
  }

  // ---- the bound ----

  /** At point k of the run the intent is claimed. */
  ghost predicate ClaimedAt(s: State, ls: seq<Label>, k: nat, i: nat)
    requires k < |ls| && Runs(s, ls)
  {
    && Runs(s, ls[..k])
    && var t := After(s, ls[..k]);
       && ClaimsIt(t, ls[k], i) && i in t.db.intents && Enabled(t, ls[k])
       && Step(t, ls[k]).proc.Working? && Step(t, ls[k]).proc.it.id == i
  }

  lemma ClaimedLater(s: State, ls: seq<Label>, k: nat, i: nat)
    requires ls != [] && Runs(s, ls) && k < |ls| - 1 && ClaimedAt(Step(s, ls[0]), ls[1..], k, i)
    ensures ClaimedAt(s, ls, k + 1, i)
  {
    assert ls[..k + 1][1..] == ls[1..][..k] && ls[..k + 1][0] == ls[0];
  }

  lemma {:induction false} ClaimedOverRun(s: State, ls: seq<Label>, i: nat) returns (k: nat)
    requires Ordered(s) && Runs(s, ls) && Waits(s, i) && QueueFair(s, i) && PassesEnded(ls) >= Passes(s, i)
    ensures k < |ls| && ClaimedAt(s, ls, k, i)
    decreases |ls|
  {
    assert ls != [];
    if ClaimsIt(s, ls[0], i) {
      k := 0;
      ClaimSucceeds(s);
      assert ls[..0] == [] && After(s, ls[..0]) == s;
    } else {
      OrderedKept(s, ls[0]);
      PassesFall(s, ls[0], i);
      var j := ClaimedOverRun(Step(s, ls[0]), ls[1..], i);
      ClaimedLater(s, ls, j, i);
      k := j + 1;
    }
  }

  lemma {:induction false} RunOrdered(s: State, ls: seq<Label>)
    requires Ordered(s) && Runs(s, ls)
    ensures Ordered(After(s, ls))
    decreases |ls|
  {
    if ls == [] {
    } else {
      OrderedKept(s, ls[0]);
      RunOrdered(Step(s, ls[0]), ls[1..]);
    }
  }

  /**
   From any reachable state at rest: an intent that is due, with k open intents of its severity class ahead of it, is claimed
   within k / slots + 1 completed passes, whatever fails or is interrupted and whatever alerts and intents arrive.
   */
  lemma ClaimedWithin(s0: State, before: seq<Label>, s: State, ls: seq<Label>, i: nat) returns (k: nat)
    requires Reached(s0, before, s) && s.proc.Resting? && Runs(s, ls)
    requires i in s.db.intents && Eligible(s.db, i) && s.db.intents[i].alert in s.db.alerts
    requires PassesEnded(ls) >= FullSlots(|Ahead(s.db, i)|, SlotsOf(s.db, i)) + 1
    ensures k < |ls| && ClaimedAt(s, ls, k, i)
  {
    InitialInv(s0);
    RunOrdered(s0, before);
    k := ClaimedOverRun(s, ls, i);
  }
}
