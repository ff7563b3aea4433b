/**
 Runs of the discovery schedule: rescans, starts and completions in any order under a clock that never
 goes back, with devices disabled and enabled again at any rescan.
 */
module DiscoveryFairness {
  import opened Ranking
  import opened DiscoveryTables

  datatype Event =
    | Rescan(enabled: set<nat>, now: Instant, admitted: seq<nat>)
    | Start
    | Complete(device: nat, now: Instant)

  datatype System = System(s: Schedule, clock: Instant)

  ghost predicate Can(y: System, e: Event) {
    match e
    case Rescan(enabled, now, ids) => y.clock <= now && Admits(y.s, enabled, now, ids)
    case Start => CanStart(y.s)
    case Complete(id, now) => y.clock <= now && id in y.s.active
  }

  ghost function Do(y: System, e: Event): System
    requires Can(y, e)
  {
    match e
    case Rescan(enabled, now, ids) => System(Reconciled(y.s, enabled, ids), now)
    case Start => y.(s := StartOne(y.s))
    case Complete(id, now) => System(Completed(y.s, id, now), now)
  }

  ghost predicate Runs(y: System, es: seq<Event>)
    decreases |es|
  {
    es == [] || (Can(y, es[0]) && Runs(Do(y, es[0]), es[1..]))
  }

  ghost function After(y: System, es: seq<Event>): System
    requires Runs(y, es)
    decreases |es|
  {
    if es == [] then y else After(Do(y, es[0]), es[1..])
  }

  // ---- what every call keeps ----

  /** Every deadline sits on its device's hourly grid and at most one interval ahead of the clock. */
  ghost predicate OnGrid(y: System) {
    && y.s.anchor <= y.clock
    && forall id | id in y.s.nextDue ::
      && (y.s.nextDue[id] - (y.s.anchor + Stagger(id))) % INTERVAL == 0
      && y.s.anchor + Stagger(id) <= y.s.nextDue[id] <= y.clock + INTERVAL
  }

  ghost predicate Good(y: System) { Consistent(y.s) && OnGrid(y) }

  lemma {:induction false} KeptDistinct(s: seq<nat>, enabled: set<nat>)
    requires Distinct(s)
    ensures Distinct(Kept(s, enabled)) && AsSet(Kept(s, enabled)) == AsSet(s) * enabled
  {
    if s != [] {
      KeptDistinct(s[..|s| - 1], enabled);
    }
  }

  lemma RescanKeeps(y: System, e: Event)
    requires Good(y) && Can(y, e) && e.Rescan?
    ensures Good(Do(y, e))
  {
    var kept := Retained(y.s, e.enabled);
    KeptDistinct(y.s.backlog, e.enabled);
    LowestIsShort(DueKeys(kept, e.now), Room(kept), e.admitted);
    var s' := Do(y, e).s;
    forall x | x in e.admitted ensures x in kept.nextDue && x !in kept.queued && x !in kept.active {
      assert x in DueKeys(kept, e.now);
    }
    assert AsSet(s'.backlog) == AsSet(kept.backlog) + AsSet(e.admitted);
    assert Distinct(s'.backlog);
  }

  lemma HeadLeaves(b: seq<nat>)
    requires Distinct(b) && b != []
    ensures AsSet(b[1..]) == AsSet(b) - {b[0]} && b[0] in AsSet(b) && Distinct(b[1..])
  {
    assert b == [b[0]] + b[1..];
  }

  lemma StartKeeps(y: System)
    requires Good(y) && Can(y, Start)
    ensures Good(Do(y, Start))
  {
    HeadLeaves(y.s.backlog);
  }

  lemma GridSum(a: int, b: int)
    requires a % INTERVAL == 0 && b % INTERVAL == 0
    ensures (a + b) % INTERVAL == 0
  {
  }

  lemma CompleteKeeps(y: System, e: Event)
    requires Good(y) && Can(y, e) && e.Complete?
    ensures Good(Do(y, e))
  {
    if e.device in y.s.nextDue {
      SlotOnGrid(y.s.anchor + Stagger(e.device), y.s.nextDue[e.device], e.now);
    }
  }

  lemma SlotOnGrid(base: Instant, due: Instant, now: Instant)
    requires (due - base) % INTERVAL == 0 && base <= due <= now + INTERVAL
    ensures (NextSlot(due, now) - base) % INTERVAL == 0 && base <= NextSlot(due, now) <= now + INTERVAL
  {
    var next := NextSlot(due, now);
    GridSum(due - base, next - due);
    assert next - base == (due - base) + (next - due);
  }

  lemma EventKeeps(y: System, e: Event)
    requires Good(y) && Can(y, e)
    ensures Good(Do(y, e))
  {
    match e
    case Rescan(_, _, _) => RescanKeeps(y, e);
    case Start => StartKeeps(y);
    case Complete(_, _) => CompleteKeeps(y, e);
  }

  lemma {:induction false} RunKeeps(y: System, es: seq<Event>)
    requires Good(y) && Runs(y, es)
    ensures Good(After(y, es))
    decreases |es|
  {
    if es == [] {
    } else {
      EventKeeps(y, es[0]);
      RunKeeps(Do(y, es[0]), es[1..]);
    }
  }

  /** The lookup self.next_due[&id] in start_ready never fails, and never starts a device twice at once. */
  lemma StartFindsDeadline(y: System)
    requires Good(y) && Can(y, Start)
    ensures y.s.backlog[0] in y.s.nextDue && y.s.backlog[0] !in y.s.active
  {
    assert y.s.backlog[0] in AsSet(y.s.backlog);
  }

  // ---- bounded overtaking ----

  predicate Waits(y: System, d: nat) {
    d in y.s.nextDue && y.s.nextDue[d] <= y.clock && d !in y.s.active
  }

  ghost predicate Ahead(b: seq<nat>, d: nat, e: nat) {
    exists j, k | 0 <= j < k < |b| :: b[j] == d && b[k] == e
  }

  /** e cannot start before d: it is running, or behind d in the queue, or has a later deadline. */
  ghost predicate Behind(y: System, e: nat, d: nat) {
    && e in y.s.nextDue
    && (|| e in y.s.active
        || (e in y.s.queued && Ahead(y.s.backlog, d, e))
        || (e !in y.s.queued && d in y.s.nextDue && y.s.nextDue[d] < y.s.nextDue[e]))
  }

  predicate Starts(y: System, ev: Event, x: nat) {
    ev.Start? && y.s.backlog != [] && y.s.backlog[0] == x
  }

  predicate Includes(ev: Event, d: nat, e: nat) {
    ev.Rescan? ==> d in ev.enabled && e in ev.enabled
  }

  lemma WaitsOn(y: System, ev: Event, d: nat, e: nat)
    requires Good(y) && Can(y, ev) && Waits(y, d) && Includes(ev, d, e) && !Starts(y, ev, d)
    ensures Waits(Do(y, ev), d)
  {
  }

  lemma {:induction false} KeptOrder(s: seq<nat>, enabled: set<nat>, j: nat, k: nat)
    requires j < k < |s| && s[j] in enabled && s[k] in enabled
    ensures exists j', k' | 0 <= j' < k' < |Kept(s, enabled)| :: Kept(s, enabled)[j'] == s[j] && Kept(s, enabled)[k'] == s[k]
  {
    var front := s[..|s| - 1];
    if k == |s| - 1 {
      assert front[j] == s[j] && s[j] in Kept(front, enabled);
      var j' :| 0 <= j' < |Kept(front, enabled)| && Kept(front, enabled)[j'] == s[j];
      assert Kept(s, enabled)[j'] == s[j] && Kept(s, enabled)[|Kept(front, enabled)|] == s[k];
    } else {
      KeptOrder(front, enabled, j, k);
      var j', k' :| 0 <= j' < k' < |Kept(front, enabled)| && Kept(front, enabled)[j'] == s[j] && Kept(front, enabled)[k'] == s[k];
      assert Kept(s, enabled)[j'] == s[j] && Kept(s, enabled)[k'] == s[k];
    }
  }

  lemma QueueOrderKept(y: System, ev: Event, d: nat, e: nat)
    requires Good(y) && Can(y, ev) && ev.Rescan? && Includes(ev, d, e)
    requires Ahead(y.s.backlog, d, e)
    ensures Ahead(Do(y, ev).s.backlog, d, e)
  {
    var j, k :| 0 <= j < k < |y.s.backlog| && y.s.backlog[j] == d && y.s.backlog[k] == e;
    KeptOrder(y.s.backlog, ev.enabled, j, k);
    var kept := Kept(y.s.backlog, ev.enabled);
    var j', k' :| 0 <= j' < k' < |kept| && kept[j'] == d && kept[k'] == e;
    var b := Do(y, ev).s.backlog;
    assert b[j'] == d && b[k'] == e;
  }

  /** Of two due devices the one with the earlier deadline is admitted first. */
  lemma EarlierAdmitted(keys: Keyed, n: nat, ids: seq<nat>, d: nat, e: nat)
    requires OwnIds(keys) && IsLowest(keys, n, ids)
    requires d in keys && e in ids && Less(keys[d], keys[e])
    ensures Ahead(ids, d, e)
  {
    SubsetSize(Below(keys, d), Below(keys, e));
    var j :| 0 <= j < |ids| && ids[j] == d;
    var k :| 0 <= k < |ids| && ids[k] == e;
    assert j != k;
    assert j < k by {
      LowestOrder(keys, n, ids, j, k);
    }
  }

  lemma LowestOrder(keys: Keyed, n: nat, ids: seq<nat>, j: nat, k: nat)
    requires IsLowest(keys, n, ids) && j < |ids| && k < |ids|
    ensures ids[j] in keys && ids[k] in keys
    ensures Less(keys[ids[j]], keys[ids[k]]) ==> j < k
  {
    assert ids[j] in ids && ids[k] in ids;
    if k < j {
      assert Less(keys[ids[k]], keys[ids[j]]);
    }
  }

  lemma InQueue(b: seq<nat>, x: nat) returns (j: nat)
    requires x in AsSet(b)
    ensures j < |b| && b[j] == x
  {
    j :| 0 <= j < |b| && b[j] == x;
  }

  lemma JoinBehind(b: seq<nat>, ids: seq<nat>, d: nat, e: nat)
    requires d in AsSet(b) && e in ids
    ensures Ahead(b + ids, d, e)
  {
    var j := InQueue(b, d);
    var k :| 0 <= k < |ids| && ids[k] == e;
    assert (b + ids)[j] == d && (b + ids)[|b| + k] == e;
  }

  lemma JoinTogether(b: seq<nat>, ids: seq<nat>, d: nat, e: nat)
    requires Ahead(ids, d, e)
    ensures Ahead(b + ids, d, e)
  {
    var j, k :| 0 <= j < k < |ids| && ids[j] == d && ids[k] == e;
    assert (b + ids)[|b| + j] == d && (b + ids)[|b| + k] == e;
  }

  /** e joins the queue at a rescan: d is in it already, or joins with it, ahead. */
  lemma AdmittedBehind(y: System, ev: Event, d: nat, e: nat)
    requires Good(y) && Can(y, ev) && ev.Rescan? && Includes(ev, d, e)
    requires Waits(y, d) && e in ev.admitted && e !in y.s.queued
    requires e in y.s.nextDue && y.s.nextDue[d] < y.s.nextDue[e]
    ensures Ahead(Do(y, ev).s.backlog, d, e)
  {
    var kept := Retained(y.s, ev.enabled);
    if d in y.s.queued {
      KeptDistinct(y.s.backlog, ev.enabled);
      JoinBehind(kept.backlog, ev.admitted, d, e);
    } else {
      var keys := DueKeys(kept, ev.now);
      assert d in keys && e in keys;
      EarlierAdmitted(keys, Room(kept), ev.admitted, d, e);
      JoinTogether(kept.backlog, ev.admitted, d, e);
    }
  }

  /** A rescan never puts e in front of a waiting d that is ahead of it. */
  lemma RescanKeepsBehind(y: System, ev: Event, d: nat, e: nat)
    requires Good(y) && Can(y, ev) && ev.Rescan? && Includes(ev, d, e)
    requires d != e && Waits(y, d) && Behind(y, e, d)
    ensures Behind(Do(y, ev), e, d)
  {
    if e in y.s.active {
    } else if e in y.s.queued {
      QueueOrderKept(y, ev, d, e);
    } else if e in ev.admitted {
      AdmittedBehind(y, ev, d, e);
    }
  }

  lemma StartKeepsBehind(y: System, d: nat, e: nat)
    requires Good(y) && Can(y, Start) && d != e && Waits(y, d) && Behind(y, e, d) && !Starts(y, Start, d)
    ensures !Starts(y, Start, e) && Behind(Do(y, Start), e, d)
  {
    var b := y.s.backlog;
    assert b[0] in AsSet(b);
    if e in y.s.queued {
      var j, k :| 0 <= j < k < |b| && b[j] == d && b[k] == e;
      assert b[1..][j - 1] == d && b[1..][k - 1] == e;
      assert e != b[0];
    }
  }

  lemma CompleteKeepsBehind(y: System, ev: Event, d: nat, e: nat)
    requires Good(y) && Can(y, ev) && ev.Complete? && d != e && Waits(y, d) && Behind(y, e, d)
    ensures Behind(Do(y, ev), e, d)
  {
  }

  lemma EventKeepsBehind(y: System, ev: Event, d: nat, e: nat)
    requires Good(y) && Can(y, ev) && Includes(ev, d, e)
    requires d != e && Waits(y, d) && Behind(y, e, d) && !Starts(y, ev, d)
    ensures !Starts(y, ev, e) && Waits(Do(y, ev), d) && Behind(Do(y, ev), e, d)
  {
    WaitsOn(y, ev, d, e);
    match ev
    case Rescan(_, _, _) => RescanKeepsBehind(y, ev, d, e);
    case Start => StartKeepsBehind(y, d, e);
    case Complete(_, _) => CompleteKeepsBehind(y, ev, d, e);
  }

  /** Once e has started, it is behind every device still waiting. */
  lemma StartedIsBehind(y: System, d: nat, e: nat)
    requires Good(y) && Can(y, Start) && d != e && Waits(y, d) && Starts(y, Start, e)
    ensures Waits(Do(y, Start), d) && Behind(Do(y, Start), e, d)
  {
    StartFindsDeadline(y);
  }

  /** The devices a run starts, in order. */
  ghost function Started(y: System, es: seq<Event>): seq<nat>
    requires Runs(y, es)
    decreases |es|
  {
    if es == [] then []
    else (if es[0].Start? then [y.s.backlog[0]] else []) + Started(Do(y, es[0]), es[1..])
  }

  ghost predicate AllInclude(es: seq<Event>, d: nat, e: nat) {
    forall k | 0 <= k < |es| :: Includes(es[k], d, e)
  }

  lemma {:induction false} BehindNeverStarts(y: System, es: seq<Event>, d: nat, e: nat)
    requires Good(y) && Runs(y, es) && AllInclude(es, d, e)
    requires d != e && Waits(y, d) && Behind(y, e, d) && d !in Started(y, es)
    ensures e !in Started(y, es)
    decreases |es|
  {
    if es == [] {
    } else {
      assert Includes(es[0], d, e);
      EventKeeps(y, es[0]);
      EventKeepsBehind(y, es[0], d, e);
      BehindNeverStarts(Do(y, es[0]), es[1..], d, e);
    }
  }

  function Count(s: seq<nat>, x: nat): nat {
    if s == [] then 0 else (if s[0] == x then 1 else 0) + Count(s[1..], x)
  }

  lemma {:induction false} CountZero(s: seq<nat>, x: nat)
    requires x !in s
    ensures Count(s, x) == 0
  {
    if s != [] {
      CountZero(s[1..], x);
    }
  }

  /**
   While a due device waits, with both devices enabled at every rescan, any other device starts at
   most once, whatever deadlines pass and however often the backlog overflows.
   */
  lemma {:induction false} BoundedOvertaking(y: System, es: seq<Event>, d: nat, e: nat)
    requires Good(y) && Runs(y, es) && AllInclude(es, d, e)
    requires d != e && Waits(y, d) && d !in Started(y, es)
    ensures Count(Started(y, es), e) <= 1
    decreases |es|
  {
    if es == [] {
    } else {
      var y', rest := Do(y, es[0]), es[1..];
      assert Includes(es[0], d, e);
      EventKeeps(y, es[0]);
      if es[0].Start? && y.s.backlog[0] == e {
        StartedIsBehind(y, d, e);
        BehindNeverStarts(y', rest, d, e);
        CountZero(Started(y', rest), e);
        assert Started(y, es) == [e] + Started(y', rest);
      } else {
        WaitsOn(y, es[0], d, e);
        BoundedOvertaking(y', rest, d, e);
        assert es[0].Start? ==> Started(y, es) == [y.s.backlog[0]] + Started(y', rest);
        assert !es[0].Start? ==> Started(y, es) == Started(y', rest);
      }
    }
  }

  // ---- no starvation, for a fixed set of enabled devices ----

  ghost predicate Fixed(es: seq<Event>, enabled: set<nat>) {
    forall k | 0 <= k < |es| :: es[k].Rescan? ==> es[k].enabled == enabled
  }

  lemma {:induction false} StartedKnown(y: System, es: seq<Event>, enabled: set<nat>)
    requires Good(y) && Runs(y, es) && Fixed(es, enabled) && y.s.nextDue.Keys == enabled
    ensures AsSet(Started(y, es)) <= enabled
    decreases |es|
  {
    if es == [] {
    } else {
      EventKeeps(y, es[0]);
      assert es[0].Rescan? ==> es[0].enabled == enabled;
      StartedKnown(Do(y, es[0]), es[1..], enabled);
      if es[0].Start? {
        StartFindsDeadline(y);
      }
    }
  }

  lemma {:induction false} TwiceCounted(s: seq<nat>, j: nat, k: nat)
    requires j < k < |s| && s[j] == s[k]
    ensures Count(s, s[j]) >= 2
  {
    if j > 0 {
      TwiceCounted(s[1..], j - 1, k - 1);
    } else {
      OnceCounted(s[1..], k - 1);
    }
  }

  lemma {:induction false} OnceCounted(s: seq<nat>, k: nat)
    requires k < |s|
    ensures Count(s, s[k]) >= 1
  {
    if k > 0 {
      OnceCounted(s[1..], k - 1);
    }
  }

  /** A due device is among the first |enabled| starts: at most every other device goes before it, once. */
  lemma NoStarvation(y: System, es: seq<Event>, enabled: set<nat>, d: nat)
    requires Good(y) && Runs(y, es) && Fixed(es, enabled) && y.s.nextDue.Keys == enabled
    requires Waits(y, d) && |Started(y, es)| >= |enabled|
    ensures d in Started(y, es)
  {
    var starts := Started(y, es);
    if d !in starts {
      StartedKnown(y, es, enabled);
      forall j, k | 0 <= j < k < |starts| ensures starts[j] != starts[k] {
        if starts[j] == starts[k] {
          var e := starts[j];
          assert e in AsSet(starts);
          forall i | 0 <= i < |es| ensures Includes(es[i], d, e) {
            assert es[i].Rescan? ==> es[i].enabled == enabled;
          }
          BoundedOvertaking(y, es, d, e);
          TwiceCounted(starts, j, k);
        }
      }
      DistinctSize(starts);
      SubsetSize(AsSet(starts), enabled - {d});
    }
  }

  /** Progress: a rescan with a free worker leaves something to start whenever any device is due. */
  lemma DueMeansStartable(y: System, ev: Event, d: nat)
    requires Good(y) && Can(y, ev) && ev.Rescan? && Waits(y, d) && d in ev.enabled
    requires |y.s.active| < CONCURRENCY
    ensures CanStart(Do(y, ev).s)
  {
    var kept := Retained(y.s, ev.enabled);
    KeptDistinct(y.s.backlog, ev.enabled);
    if d in kept.queued {
      var j := InQueue(kept.backlog, d);
    } else if Room(kept) > 0 {
      assert d in DueKeys(kept, ev.now);
      NonemptyServed(DueKeys(kept, ev.now), Room(kept), ev.admitted);
    }
  }

  // ---- what is due, and never before ----

  /** Nothing waits for a worker before its deadline. */
  ghost predicate OnlyDue(y: System) {
    forall x | x in y.s.queued :: x in y.s.nextDue && y.s.nextDue[x] <= y.clock
  }

  lemma OnlyDueKept(y: System, e: Event)
    requires Good(y) && OnlyDue(y) && Can(y, e)
    ensures OnlyDue(Do(y, e))
  {
    if e.Rescan? {
      var kept := Retained(y.s, e.enabled);
      forall x | x in Do(y, e).s.queued ensures x in kept.nextDue && kept.nextDue[x] <= e.now {
        if x in AsSet(e.admitted) {
          assert x in DueKeys(kept, e.now);
        }
      }
    }
  }

  lemma {:induction false} OnlyDueOverRun(y: System, es: seq<Event>)
    requires Good(y) && OnlyDue(y) && Runs(y, es)
    ensures Good(After(y, es)) && OnlyDue(After(y, es))
    decreases |es|
  {
    if es != [] {
      EventKeeps(y, es[0]);
      OnlyDueKept(y, es[0]);
      OnlyDueOverRun(Do(y, es[0]), es[1..]);
    }
  }

  /** Over any run, a device that is started is past its deadline, and not running. */
  lemma NeverEarly(y: System, es: seq<Event>)
    requires Good(y) && OnlyDue(y) && Runs(y, es) && Can(After(y, es), Start)
    ensures
      var now := After(y, es);
      var d := now.s.backlog[0];
      d in now.s.nextDue && now.s.nextDue[d] <= now.clock && d !in now.s.active
  {
    OnlyDueOverRun(y, es);
    assert After(y, es).s.backlog[0] in AsSet(After(y, es).s.backlog);
  }

  /** The device is enabled, due, and neither queued nor running. */
  predicate Ripe(s: Schedule, enabled: set<nat>, now: Instant, d: nat) {
    d in enabled && DeadlineOf(s, d) <= now && d !in s.queued && d !in s.active
  }

  function DeadlineOf(s: Schedule, d: nat): Instant {
    if d in s.nextDue then s.nextDue[d] else s.anchor + Stagger(d)
  }

  predicate Riper(s: Schedule, d: nat, e: nat) {
    DeadlineOf(s, d) < DeadlineOf(s, e) || (DeadlineOf(s, d) == DeadlineOf(s, e) && d < e)
  }

  function RiperThan(s: Schedule, enabled: set<nat>, now: Instant, d: nat): set<nat> {
    set e | e in enabled && Ripe(s, enabled, now, e) && Riper(s, e, d)
  }

  /**
   Known devices keep their deadlines and new ones get theirs; queued are those queued before and still enabled, then the
   admitted.
   */
  lemma RescanLeaves(s: Schedule, enabled: set<nat>, ids: seq<nat>)
    ensures
      var s' := Reconciled(s, enabled, ids);
      && s'.anchor == s.anchor && s'.active == s.active
      && s'.nextDue.Keys == enabled && (forall d | d in enabled :: s'.nextDue[d] == DeadlineOf(s, d))
      && s'.backlog == Kept(s.backlog, enabled) + ids && s'.queued == s.queued * enabled + AsSet(ids)
  {
  }

  lemma RipeKeys(s: Schedule, enabled: set<nat>, now: Instant)
    ensures
      var keys := DueKeys(Retained(s, enabled), now);
      && (forall d :: d in keys <==> Ripe(s, enabled, now, d))
      && forall d, e | d in keys && e in keys :: Less(keys[d], keys[e]) <==> Riper(s, d, e)
  {
  }

  /** A ripe device is admitted exactly while fewer than 256 are queued or riper. */
  lemma AdmittedIff(s: Schedule, enabled: set<nat>, now: Instant, ids: seq<nat>, d: nat)
    requires Consistent(s) && Admits(s, enabled, now, ids)
    ensures d in ids <==> Ripe(s, enabled, now, d) && |RiperThan(s, enabled, now, d)| + |Kept(s.backlog, enabled)| < 256
  {
    var keys := DueKeys(Retained(s, enabled), now);
    RipeKeys(s, enabled, now);
    if d in keys {
      assert Below(keys, d) == RiperThan(s, enabled, now, d);
    }
  }

  lemma AdmittedInOrder(s: Schedule, enabled: set<nat>, now: Instant, ids: seq<nat>, j: nat, k: nat)
    requires Admits(s, enabled, now, ids) && j < k < |ids|
    ensures Riper(s, ids[j], ids[k])
  {
    RipeKeys(s, enabled, now);
  }
}
