/**
 What the retuning planner guarantees, said of the snapshot and the live fleet alone: which devices time a rule, which
 counts and intervals the whole changeover leaves behind, and what every stop on the way keeps.
 */
module RetuneMeaning {
  import opened Options
  import opened Sorting
  import opened RetunePlan
  import opened RetuneScript
  import opened RetuneSafety

  // ---- the fleet is the snapshot's ----

  lemma {:induction false} DevicesAre(rows: seq<(int, int)>, devices: map<int, int>)
    requires AddDevices(rows, devices).Ok?
    ensures
      var all := AddDevices(rows, devices).value;
      && (forall d | d in devices :: d in all && all[d] == devices[d])
      && (forall row | row in rows :: row.0 in all && all[row.0] == row.1)
      && (forall d | d in all :: d in devices || (d, all[d]) in rows)
    decreases |rows|
  {
    if rows != [] {
      assert rows == [rows[0]] + rows[1..];
      DevicesAre(rows[1..], devices[rows[0].0 := rows[0].1]);
    }
  }

  lemma {:induction false} InterfacesAre(rows: seq<(int, int)>, interfaces: map<int, int>, devices: map<int, int>)
    requires AddInterfaces(rows, interfaces, devices).Ok?
    ensures
      var all := AddInterfaces(rows, interfaces, devices).value;
      && (forall i | i in interfaces :: i in all && all[i] == interfaces[i])
      && (forall row | row in rows :: row.0 in all && all[row.0] == row.1)
      && (forall i | i in all :: i in interfaces || (i, all[i]) in rows)
    decreases |rows|
  {
    if rows != [] {
      assert rows == [rows[0]] + rows[1..];
      InterfacesAre(rows[1..], interfaces[rows[0].0 := rows[0].1], devices);
    }
  }

  lemma {:induction false} CandidatesAre(items: seq<(int, int)>, requested: map<int, int>, devices: map<int, int>)
    requires AddCandidates(items, requested, devices).Ok?
    requires forall j, k | 0 <= j < k < |items| :: items[j].0 != items[k].0
    requires forall k | 0 <= k < |items| :: items[k].0 !in requested
    ensures
      var all := AddCandidates(items, requested, devices).value;
      && (forall d | d in requested :: d in all && all[d] == requested[d])
      && (forall item | item in items :: item.0 in all && all[item.0] == item.1)
      && (forall d | d in all :: d in requested || (d, all[d]) in items)
    decreases |items|
  {
    if items != [] {
      assert items == [items[0]] + items[1..];
      CandidatesAre(items[1..], requested[items[0].0 := items[0].1], devices);
    }
  }

  /** Table t holds exactly these pairs. */
  ghost predicate Holds(t: map<int, int>, pairs: seq<(int, int)>) {
    (forall p | p in pairs :: p.0 in t && t[p.0] == p.1) && forall x | x in t :: (x, t[x]) in pairs
  }

  /** Accepted input is taken over unchanged. */
  lemma FleetIs(s: Snapshot, items: seq<(int, int)>, f: Fleet)
    requires Parsed(items, {}).Ok? && FleetOf(s, items) == Ok(f)
    ensures Holds(f.devices, s.devices) && Holds(f.interfaces, s.interfaces) && Holds(f.requested, items)
    ensures f.rollup == s.rollup
  {
    DevicesAre(s.devices, map[]);
    InterfacesAre(s.interfaces, map[], f.devices);
    CandidatesAre(items, map[], f.devices);
  }

  // ---- what times a rule ----

  /** The rule is evaluated on this interface. */
  predicate Measures(rule: Rule, i: int) {
    i in rule.members || (rule.aggregation != "sum" && rule.members == [] && rule.interfaceId == Some(i))
  }

  predicate Timed(rule: Rule, f: Fleet, d: int) {
    exists i | i in f.interfaces :: Measures(rule, i) && f.interfaces[i] == d
  }

  /**
   c is the slowest interval among the devices of the rule's interfaces, and for an aggregate rule also no faster
   than the rollup.
   */
  ghost predicate IsCadence(rule: Rule, f: Fleet, interval: map<int, int>, c: int) {
    && (forall i | Measures(rule, i) :: i in f.interfaces && f.interfaces[i] in interval && interval[f.interfaces[i]] <= c)
    && (rule.aggregation == "sum" ==> f.rollup <= c)
    && ((exists i | i in f.interfaces && f.interfaces[i] in interval :: Measures(rule, i) && interval[f.interfaces[i]] == c)
        || (rule.aggregation == "sum" && c == f.rollup))
  }

  function LookedUp(members: seq<int>, interfaces: map<int, int>): (r: seq<int>)
    requires forall k | 0 <= k < |members| :: members[k] in interfaces
    ensures |r| == |members| && forall k | 0 <= k < |members| :: r[k] == interfaces[members[k]]
  {
    seq(|members|, k requires 0 <= k < |members| => interfaces[members[k]])
  }

  lemma {:induction false} MembersLookedUp(id: int, members: seq<int>, interfaces: map<int, int>, found: seq<int>)
    requires MemberDevices(id, members, interfaces, found).Ok?
    ensures forall k | 0 <= k < |members| :: members[k] in interfaces
    ensures MemberDevices(id, members, interfaces, found).value == found + LookedUp(members, interfaces)
    decreases |members|
  {
    if members != [] {
      var rest := members[1..];
      MembersLookedUp(id, rest, interfaces, found + [interfaces[members[0]]]);
      forall k | 0 <= k < |members| ensures members[k] in interfaces {
        assert k > 0 ==> members[k] == rest[k - 1];
      }
      assert LookedUp(members, interfaces) == [interfaces[members[0]]] + LookedUp(rest, interfaces);
    }
  }

  lemma MembersMeasured(rule: Rule, i: int)
    requires Members(rule).Ok?
    ensures i in Members(rule).value <==> Measures(rule, i)
  {
    if rule.aggregation != "sum" && rule.members == [] {
      assert Members(rule).value == [rule.interfaceId.value];
    } else {
      assert Members(rule).value == rule.members;
    }
  }

  ghost predicate Accepted(rule: Rule, f: Fleet)
    requires f.Sound()
  {
    Members(rule).Ok? && MemberDevices(rule.id, Members(rule).value, f.interfaces, []).Ok?
  }

  lemma UsedAre(rule: Rule, f: Fleet)
    requires f.Sound() && Accepted(rule, f)
    ensures Used(rule, f) != []
    ensures forall i | Measures(rule, i) :: i in f.interfaces && f.interfaces[i] in Used(rule, f)
    ensures forall d | d in Used(rule, f) :: Timed(rule, f, d)
  {
    var ms := Members(rule).value;
    var used := Used(rule, f);
    MembersLookedUp(rule.id, ms, f.interfaces, []);
    assert used == LookedUp(ms, f.interfaces);
    forall i | Measures(rule, i) ensures i in f.interfaces && f.interfaces[i] in used {
      MembersMeasured(rule, i);
      var k :| 0 <= k < |ms| && ms[k] == i;
      assert used[k] == f.interfaces[i];
    }
    forall d | d in used ensures Timed(rule, f, d) {
      var k :| 0 <= k < |used| && used[k] == d;
      MembersMeasured(rule, ms[k]);
      assert f.interfaces[ms[k]] == d;
    }
  }

  /** The cadence the planner computes is that one. */
  lemma CadenceIs(rule: Rule, f: Fleet, interval: map<int, int>)
    requires f.Sound() && Accepted(rule, f) && f.devices.Keys <= interval.Keys
    requires forall d | d in interval :: interval[d] > 0
    ensures IsCadence(rule, f, interval, Slowest(Used(rule, f), interval, Floor(rule.aggregation, f.rollup)))
  {
    UsedAre(rule, f);
    var used, floor := Used(rule, f), Floor(rule.aggregation, f.rollup);
    var c := Slowest(used, interval, floor);
    SlowestIs(used, interval, floor);
    assert used[0] in used && interval[used[0]] <= c;
    if c != floor {
      var d :| d in used && interval[d] == c;
      var i :| i in f.interfaces && Measures(rule, i) && f.interfaces[i] == d;
    }
  }

  lemma OneCadence(rule: Rule, f: Fleet, interval: map<int, int>, c: int, c': int)
    requires IsCadence(rule, f, interval, c) && IsCadence(rule, f, interval, c')
    ensures c == c'
  {
  }

  /** Metrics that are not polled. */
  predicate FlowMetric(metric: string) {
    || (|metric| >= 5 && metric[..5] == "flow_") || (|metric| >= 8 && metric[..8] == "netflow_")
    || (|metric| >= 6 && metric[..6] == "sflow_")
  }

  lemma FlowIs(metric: string)
    ensures IsFlow(metric) <==> FlowMetric(metric)
  {
  }

  // ---- main theorems ----

  /** The seconds that n samples in a row span at least. */
  function Span(n: int, c: int): int { if n >= 1 then (n - 1) * c else 0 }

  /** Counts at cadence c' demand at least the evidence that `before` demanded at cadence c. */
  predicate AsMuch(rule: Rule, before: Counts, now: Counts, c: int, c': int) {
    && now.fire * c' >= before.fire * c && Span(now.fire, c') >= Span(before.fire, c)
    && (rule.mode != "manual" ==>
          var r, r' := if before.recovery.Some? then before.recovery.value else before.fire,
                       if now.recovery.Some? then now.recovery.value else now.fire;
          r' * c' >= r * c && Span(r', c') >= Span(r, c))
  }

  lemma SomeLeft(before: int, after: int, c: int, c': int)
    requires before >= 1 && 0 < c' <= c && after * c' >= before * c
    ensures after >= 1
  {
    if after <= 0 {
      MulMonotone(0, -after, c', c');
      assert -after * c' == -(after * c');
      MulMonotone(1, before, c, c);
    }
  }

  lemma GapsSpan(before: int, after: int, c: int, c': int)
    requires before >= 0 && 0 < c' <= c && after * c' >= before * c
    ensures Span(after, c') >= Span(before, c)
  {
    if before >= 1 {
      SomeLeft(before, after, c, c');
      assert (after - 1) * c' == after * c' - c' && (before - 1) * c == before * c - c;
    } else if after >= 1 {
      MulMonotone(0, after - 1, c', c');
    }
  }

  lemma AtLeastAsMuch(rule: Rule, before: Counts, now: Counts, c: int, c': int)
    requires before == Counts(rule.fire, rule.recovery) && NoWeaker(rule, now, c, c') && 0 < c' <= c
    requires rule.fire >= 0 && (rule.recovery.Some? ==> rule.recovery.value >= 0)
    ensures AsMuch(rule, before, now, c, c')
  {
    GapsSpan(before.fire, now.fire, c, c');
    if rule.mode != "manual" {
      GapsSpan(Recovery(before), Recovery(now), c, c');
    }
  }

  // ---- every stop ----

  lemma SlowerNever(rule: Rule, f: Fleet, low: map<int, int>, high: map<int, int>, c': int, c: int)
    requires IsCadence(rule, f, low, c') && IsCadence(rule, f, high, c)
    requires forall d | d in low :: d in high && low[d] <= high[d]
    ensures c' <= c
  {
    if !(rule.aggregation == "sum" && c' == f.rollup) {
      var i :| i in f.interfaces && f.interfaces[i] in low && Measures(rule, i) && low[f.interfaces[i]] == c';
      var d := f.interfaces[i];
      assert d in low && low[d] <= high[d];
      assert Measures(rule, i) && high[d] <= c;
    }
  }

  /** The captured counts of a rule of the snapshot. */
  function CountsOf(rule: Rule): Counts { Counts(rule.fire, rule.recovery) }

  lemma PlannedRule(s: Snapshot, items: seq<(int, int)>, r: Report, f: Fleet, rule: Rule)
    requires Planned(s, items) == Ok(r) && FleetOf(s, items) == Ok(f) && rule in s.rules
    ensures f.Sound() && Accepted(rule, f) && rule.fire >= 0 && (rule.recovery.Some? ==> rule.recovery.value >= 0)
  {
    var rows, ids := ReportOf(s, items, r, f);
    var n := RowIndex(s, f, rows, rule);
  }

  /** Between the captured intervals and the candidates'. */
  lemma IntervalsBetween(s: Snapshot, items: seq<(int, int)>, r: Report, f: Fleet, l: Live, j: nat, k: nat)
    requires Planned(s, items) == Ok(r) && FleetOf(s, items) == Ok(f) && Captured(s, f, l)
    requires j <= |r.apply| && k <= |r.rollback|
    ensures
      var now := Stopped(l, r, j, k);
      now.interval.Keys == f.devices.Keys && forall d | d in f.devices :: f.Target()[d] <= now.interval[d] <= f.devices[d]
  {
    var rows, ids := ReportOf(s, items, r, f);
    CapturedCounting(s, f, rows, l);
    ApplyPrefix(f, rows, ids, r, l, j);
    RollbackPrefix(f, rows, ids, r, Sends(l, r.apply[..j]), k);
    var now := Stopped(l, r, j, k);
    forall d | d in f.devices ensures d in now.interval && f.Target()[d] <= now.interval[d] <= f.devices[d] {
      assert Switching(now, rows, f) ==> now.interval[d] in {f.devices[d], f.Target()[d]};
    }
  }

  /** The live fleet is the captured one: intervals and counts as the snapshot's rows say. */
  ghost predicate AsCaptured(s: Snapshot, l: Live) {
    && Holds(l.interval, s.devices)
    && (forall r | r in s.rules :: r.id in l.rules && l.rules[r.id] == CountsOf(r))
    && (forall id | id in l.rules :: exists r | r in s.rules :: r.id == id)
  }

  lemma CapturedIs(s: Snapshot, items: seq<(int, int)>, f: Fleet, l: Live)
    requires Parsed(items, {}).Ok? && FleetOf(s, items) == Ok(f) && AsCaptured(s, l)
    ensures Captured(s, f, l)
  {
    FleetIs(s, items, f);
    forall d ensures d in l.interval <==> d in f.devices {
      if d in l.interval { assert (d, l.interval[d]) in s.devices; }
      if d in f.devices { assert (d, f.devices[d]) in s.devices; }
    }
    forall d | d in l.interval ensures l.interval[d] == f.devices[d] {
      assert (d, l.interval[d]) in s.devices;
    }
    assert l.interval == f.devices;
    forall id | id in l.rules ensures id in (set r | r in s.rules :: r.id) {
      var r :| r in s.rules && r.id == id;
    }
    assert l.rules.Keys == (set r | r in s.rules :: r.id);
  }

  /**
   Wherever the changeover stops, and however far the rollback then gets: with c the slowest interval among the devices
   that time a rule when it was captured and c' the slowest among them now, the rule demands at least as much evidence to fire,
   and to recover unless recovery is manual.
   */
  lemma EveryStopIsSafe(s: Snapshot, items: seq<(int, int)>, r: Report, f: Fleet, l: Live, j: nat, k: nat,
                        rule: Rule, c: int, c': int)
    requires Planned(s, items) == Ok(r) && FleetOf(s, items) == Ok(f) && AsCaptured(s, l)
    requires j <= |r.apply| && k <= |r.rollback| && rule in s.rules && !FlowMetric(rule.metric)
    requires IsCadence(rule, f, l.interval, c) && IsCadence(rule, f, Stopped(l, r, j, k).interval, c')
    ensures var now := Stopped(l, r, j, k); rule.id in now.rules && AsMuch(rule, CountsOf(rule), now.rules[rule.id], c, c')
  {
    CapturedIs(s, items, f, l);
    FlowIs(rule.metric);
    StopsAreSafe(s, items, r, f, l, j, k, rule);
    PlannedRule(s, items, r, f, rule);
    IntervalsBetween(s, items, r, f, l, j, k);
    var now := Stopped(l, r, j, k);
    CadenceIs(rule, f, l.interval);
    CadenceIs(rule, f, now.interval);
    OneCadence(rule, f, l.interval, c, Cadence(rule, Used(rule, f), f.rollup, l));
    OneCadence(rule, f, now.interval, c', Cadence(rule, Used(rule, f), f.rollup, now));
    SlowerNever(rule, f, now.interval, l.interval, c', c);
    PositiveCadence(rule, f, now.interval, c');
    AtLeastAsMuch(rule, CountsOf(rule), now.rules[rule.id], c, c');
  }

  lemma PositiveCadence(rule: Rule, f: Fleet, interval: map<int, int>, c: int)
    requires IsCadence(rule, f, interval, c) && f.rollup >= 1 && forall d | d in interval :: interval[d] > 0
    ensures c > 0
  {
    if !(rule.aggregation == "sum" && c == f.rollup) {
      var i :| i in f.interfaces && f.interfaces[i] in interval && Measures(rule, i) && interval[f.interfaces[i]] == c;
      var d := f.interfaces[i];
      assert d in interval && interval[d] > 0;
    }
  }

  /** Such cadences exist at every stop. */
  lemma StopsAreTimed(s: Snapshot, items: seq<(int, int)>, r: Report, f: Fleet, l: Live, j: nat, k: nat, rule: Rule)
    returns (c: int)
    requires Planned(s, items) == Ok(r) && FleetOf(s, items) == Ok(f) && AsCaptured(s, l)
    requires j <= |r.apply| && k <= |r.rollback| && rule in s.rules
    ensures IsCadence(rule, f, Stopped(l, r, j, k).interval, c) && c > 0
  {
    CapturedIs(s, items, f, l);
    PlannedRule(s, items, r, f, rule);
    IntervalsBetween(s, items, r, f, l, j, k);
    var now := Stopped(l, r, j, k);
    CadenceIs(rule, f, now.interval);
    c := Cadence(rule, Used(rule, f), f.rollup, now);
    PositiveCadence(rule, f, now.interval, c);
  }

  // ---- the whole changeover takes effect ----

  /** A candidate is for one of the devices that time the rule. */
  predicate Touched(rule: Rule, f: Fleet) {
    exists i | i in f.interfaces :: Measures(rule, i) && f.interfaces[i] in f.requested
  }

  lemma TouchedIs(rule: Rule, f: Fleet)
    requires f.Sound() && Accepted(rule, f)
    ensures Touched(rule, f) <==> IsAffected(Used(rule, f), f.requested)
  {
    UsedAre(rule, f);
    if IsAffected(Used(rule, f), f.requested) {
      var d :| d in Used(rule, f) && d in f.requested;
      assert Timed(rule, f, d);
      var i :| i in f.interfaces && Measures(rule, i) && f.interfaces[i] == d;
    }
  }

  /**
   v is the least count that spans at cadence c' what n samples spanned at cadence c; a count of zero and an untouched
   rule stay as they are.
   */
  ghost predicate Least(n: int, c: int, v: int, c': int) {
    v >= 0 && v * c' >= n * c && forall w: nat | w * c' >= n * c :: w >= v
  }

  /** The cadences of a row are those of the rule before and after. */
  lemma RowTimed(rule: Rule, row: Row, f: Fleet)
    requires f.Sound() && RowFor(rule, row, f)
    ensures IsCadence(rule, f, f.devices, row.oldCadence) && IsCadence(rule, f, f.Target(), row.newCadence)
    ensures row.memberDevices == Used(rule, f) && Accepted(rule, f)
  {
    CadenceIs(rule, f, f.devices);
    CadenceIs(rule, f, f.Target());
  }

  /**
   What becomes of the counts of a rule. A touched rule that is polled gets the least counts that span at cadence c' what
   the old ones spanned at cadence c, recovery only where a count is stored and used; any other rule keeps its counts.
   */
  ghost predicate Retimed(rule: Rule, f: Fleet, now: Counts, c: int, c': int) {
    if FlowMetric(rule.metric) || !Touched(rule, f) then now == CountsOf(rule)
    else
      && Least(rule.fire, c, now.fire, c')
      && if rule.mode == "manual" || rule.recovery.None? then now.recovery == rule.recovery
         else now.recovery.Some? && Least(rule.recovery.value, c, now.recovery.value, c')
  }

  lemma LeftAlone(rule: Rule, row: Row, f: Fleet)
    requires f.Sound() && RowFor(rule, row, f)
    ensures IsFlow(rule.metric) || !IsAffected(row.memberDevices, f.requested) ==> Afterwards(row) == CountsOf(rule)
    ensures rule.mode == "manual" || rule.recovery.None? ==> row.newRecovery == rule.recovery
  {
  }

  lemma FireScaled(rule: Rule, row: Row, f: Fleet)
    requires f.Sound() && RowFor(rule, row, f) && !IsFlow(rule.metric) && IsAffected(row.memberDevices, f.requested)
    ensures Least(rule.fire, row.oldCadence, row.newFire, row.newCadence)
  {
    BudgetsMet(rule, row, f);
    ScaledIsLeast(rule.fire, row.oldCadence, row.newCadence, row.newFire);
  }

  lemma RecoveryScaled(rule: Rule, row: Row, f: Fleet)
    requires f.Sound() && RowFor(rule, row, f) && !IsFlow(rule.metric) && IsAffected(row.memberDevices, f.requested)
    requires rule.mode != "manual" && rule.recovery.Some?
    ensures row.newRecovery.Some? && Least(rule.recovery.value, row.oldCadence, row.newRecovery.value, row.newCadence)
  {
    BudgetsMet(rule, row, f);
    ScaledIsLeast(rule.recovery.value, row.oldCadence, row.newCadence, row.newRecovery.value);
  }

  lemma RowRetimed(rule: Rule, row: Row, f: Fleet)
    requires f.Sound() && RowFor(rule, row, f)
    ensures Retimed(rule, f, Afterwards(row), row.oldCadence, row.newCadence)
  {
    RowTimed(rule, row, f);
    FlowIs(rule.metric);
    TouchedIs(rule, f);
    LeftAlone(rule, row, f);
    if !IsFlow(rule.metric) && IsAffected(row.memberDevices, f.requested) {
      FireScaled(rule, row, f);
      if rule.mode != "manual" && rule.recovery.Some? { RecoveryScaled(rule, row, f); }
    }
  }

  /**
   The printed lower bounds. The fire one is never below the rule's duration; recovery of a polled rule takes its samples,
   that of a flow-based rule its window or else its duration.
   */
  lemma FiguresAre(rule: Rule, row: Row, f: Fleet)
    requires f.Sound() && RowFor(rule, row, f)
    ensures row.fireLowerBefore == Max(rule.duration, Span(rule.fire, row.oldCadence))
    ensures row.fireLowerAfter == Max(rule.duration, Span(row.newFire, row.newCadence))
    ensures !FlowMetric(rule.metric) ==>
      && row.recoveryLowerBefore == Span(row.oldRecovery, row.oldCadence)
      && row.recoveryLowerAfter == Span(row.resolvedRecovery, row.newCadence)
    ensures FlowMetric(rule.metric) ==>
      && row.recoveryLowerBefore == row.recoveryLowerAfter
      && row.recoveryLowerAfter == if rule.mode == "threshold" && rule.window.Some? then rule.window.value else rule.duration
  {
    FlowIs(rule.metric);
  }

  lemma {:induction false} DevicesSent(l: Live, ids: seq<int>, interval: map<int, int>)
    requires forall x | x in ids :: x in interval && x in l.interval
    ensures
      var now := Sends(l, DeviceRequests(ids, interval));
      && now.rules == l.rules && now.interval.Keys == l.interval.Keys
      && forall d | d in l.interval :: now.interval[d] == if d in ids then interval[d] else l.interval[d]
  {
    if ids != [] {
      var front, last := ids[..|ids| - 1], ids[|ids| - 1];
      assert ids == front + [last];
      DevicesSent(l, front, interval);
      var qs := DeviceRequests(front, interval);
      assert (qs + [PutDevice(last, interval[last])])[..|qs|] == qs;
    }
  }

  lemma TargetReached(f: Fleet, ids: seq<int>, l: Live)
    requires f.Sound() && l.interval == f.devices && (forall d :: d in ids <==> d in f.requested)
    ensures Sends(l, DeviceRequests(ids, f.requested)).rules == l.rules
    ensures Sends(l, DeviceRequests(ids, f.requested)).interval == f.Target()
  {
    DevicesSent(l, ids, f.requested);
    var now := Sends(l, DeviceRequests(ids, f.requested));
    forall d | d in f.devices ensures now.interval[d] == f.Target()[d] {}
    assert now.interval.Keys == f.devices.Keys;
    forall d | d in f.requested ensures d in f.devices {}
    assert f.Target().Keys == f.devices.Keys + f.requested.Keys;
    assert now.interval == f.Target();
  }

  /** Once every request is sent, every candidate is in force and every rule has its new counts. */
  lemma AllSent(f: Fleet, rows: seq<Row>, ids: seq<int>, l: Live)
    requires f.Sound() && Counting(l, rows, f) && OwnRows(rows) && SameStorage(rows)
    requires forall d :: d in ids <==> d in f.requested
    ensures
      var now := Sends(l, RuleRequests(rows) + DeviceRequests(ids, f.requested));
      ChangedUpTo(now, rows, |rows|) && now.interval == f.Target()
  {
    assert rows[..|rows|] == rows;
    AllChanged(l, rows, |rows|, f);
    var counted := Sends(l, RuleRequests(rows));
    SendsInTwo(l, RuleRequests(rows), DeviceRequests(ids, f.requested));
    TargetReached(f, ids, counted);
  }

  lemma Carried(s: Snapshot, items: seq<(int, int)>, r: Report, f: Fleet, rows: seq<Row>) returns (ids: seq<int>)
    requires Planned(s, items) == Ok(r) && FleetOf(s, items) == Ok(f) && r.blockers == {}
    requires AddRows(SortBy(s.rules, RuleKey), [], f) == Ok(rows)
    ensures forall d :: d in ids <==> d in f.requested
    ensures r.apply == RuleRequests(rows) + DeviceRequests(ids, f.requested)
  {
    ids := SortBy(Firsts(items), Identity);
    CandidateIds(items, ids);
  }

  /** Every candidate is in force and every other device has its interval still. */
  ghost predicate SwitchedOver(f: Fleet, l: Live, now: Live) {
    && now.interval.Keys == l.interval.Keys
    && forall d | d in l.interval :: now.interval[d] == if d in f.requested then f.requested[d] else l.interval[d]
  }

  lemma TargetIsSwitched(f: Fleet, l: Live, now: Live)
    requires f.Sound() && l.interval == f.devices && now.interval == f.Target()
    ensures SwitchedOver(f, l, now)
  {
    assert forall d | d in f.requested :: d in f.devices;
  }

  lemma EffectOf(rule: Rule, f: Fleet, l: Live, now: Live, row: Row, c: int, c': int)
    requires f.Sound() && RowComputed(rule, row, f) && row.ruleId in now.rules && now.rules[row.ruleId] == Afterwards(row)
    requires IsCadence(rule, f, f.devices, c) && IsCadence(rule, f, f.Target(), c')
    ensures rule.id in now.rules && Retimed(rule, f, now.rules[rule.id], c, c')
  {
    RowTimed(rule, row, f);
    RowRetimed(rule, row, f);
    OneCadence(rule, f, f.devices, c, row.oldCadence);
    OneCadence(rule, f, f.Target(), c', row.newCadence);
  }

  /** A plan without blockers, sent whole to the captured fleet, does exactly what it is for. */
  lemma ChangeoverTakesEffect(s: Snapshot, items: seq<(int, int)>, r: Report, f: Fleet, l: Live, rule: Rule, c: int, c': int)
    requires Planned(s, items) == Ok(r) && FleetOf(s, items) == Ok(f) && r.blockers == {} && AsCaptured(s, l)
    requires rule in s.rules
    requires IsCadence(rule, f, l.interval, c) && IsCadence(rule, f, Sends(l, r.apply).interval, c')
    ensures SwitchedOver(f, l, Sends(l, r.apply))
    ensures rule.id in Sends(l, r.apply).rules && Retimed(rule, f, Sends(l, r.apply).rules[rule.id], c, c')
  {
    var rows, n := SentInFull(s, items, r, f, l, rule);
    TargetIsSwitched(f, l, Sends(l, r.apply));
    EffectOf(rule, f, l, Sends(l, r.apply), rows[n], c, c');
  }

  lemma SentInFull(s: Snapshot, items: seq<(int, int)>, r: Report, f: Fleet, l: Live, rule: Rule) returns (rows: seq<Row>, n: nat)
    requires Planned(s, items) == Ok(r) && FleetOf(s, items) == Ok(f) && r.blockers == {} && AsCaptured(s, l)
    requires rule in s.rules
    ensures f.Sound() && l.interval == f.devices && Sends(l, r.apply).interval == f.Target()
    ensures n < |rows| && RowComputed(rule, rows[n], f)
    ensures rows[n].ruleId in Sends(l, r.apply).rules && Sends(l, r.apply).rules[rows[n].ruleId] == Afterwards(rows[n])
  {
    var ids;
    rows, ids := ReportOf(s, items, r, f);
    ids := Carried(s, items, r, f, rows);
    CapturedIs(s, items, f, l);
    CapturedCounting(s, f, rows, l);
    AllSent(f, rows, ids, l);
    n := RowIndex(s, f, rows, rule);
  }

  /** Nothing stands in the way: observing, master switch off, and every touched rule clear, disarmed and without owned work. */
  ghost predicate Unhindered(s: Snapshot, f: Fleet, owned: set<int>) {
    && Observing(s.settings)
    && forall rule | rule in s.rules && Touched(rule, f) :: Free(rule, owned)
  }

  lemma RowTouched(rule: Rule, row: Row, f: Fleet)
    requires f.Sound() && RowComputed(rule, row, f)
    ensures Touched(rule, f) <==> IsAffected(row.memberDevices, f.requested)
  {
    RowTimed(rule, row, f);
    TouchedIs(rule, f);
  }

  lemma FreeIff(s: Snapshot, f: Fleet, owned: set<int>, rules: seq<Rule>, rows: seq<Row>)
    requires f.Sound() && RowsMatch(rules, rows, f) && forall rule :: rule in rules <==> rule in s.rules
    ensures Blockers(rules, rows, f.requested, owned, s.settings) == {} <==> Unhindered(s, f, owned)
  {
    NoBlockersIff(rules, rows, f.requested, owned, s.settings);
    forall k | 0 <= k < |rules| ensures Touched(rules[k], f) <==> IsAffected(rows[k].memberDevices, f.requested) {
      assert RowComputed(rules[k], rows[k], f);
      RowTouched(rules[k], rows[k], f);
    }
    forall rule | rule in s.rules ensures exists k | 0 <= k < |rules| :: rules[k] == rule {
      assert rule in rules;
    }
    assert forall k | 0 <= k < |rules| :: rules[k] in rules;
  }

  lemma BlockersOf(s: Snapshot, items: seq<(int, int)>, r: Report, f: Fleet, owned: set<int>)
    returns (rules: seq<Rule>, rows: seq<Row>)
    requires Planned(s, items) == Ok(r) && FleetOf(s, items) == Ok(f) && AddOwned(s.owned, {}) == Ok(owned)
    ensures f.Sound() && RowsMatch(rules, rows, f) && forall rule :: rule in rules <==> rule in s.rules
    ensures r.blockers == Blockers(rules, rows, f.requested, owned, s.settings)
    ensures r.blockers != {} ==> r.apply == [] && r.rollback == []
  {
    var ids;
    rows, ids := ReportOf(s, items, r, f);
    rules := SortBy(s.rules, RuleKey);
    SortedMembers(s.rules, RuleKey);
  }

  /** The plan carries its requests exactly when nothing stands in the way; otherwise none. */
  lemma PlansIffUnhindered(s: Snapshot, items: seq<(int, int)>, r: Report, f: Fleet, owned: set<int>)
    requires Planned(s, items) == Ok(r) && FleetOf(s, items) == Ok(f) && AddOwned(s.owned, {}) == Ok(owned)
    ensures r.blockers == {} <==> Unhindered(s, f, owned)
    ensures r.blockers != {} ==> r.apply == [] && r.rollback == []
  {
    var rules, rows := BlockersOf(s, items, r, f, owned);
    FreeIff(s, f, owned, rules, rows);
  }

  /** What stands in the way of this rule, if anything. */
  predicate Hinders(rule: Rule, owned: set<int>, b: Blocker) {
    || (rule.state != "clear" && b == NotClear(rule.id))
    || ((rule.id in owned || rule.ownedRunActive) && b == OwnedWork(rule.id))
    || ((rule.autoReroute || rule.autoRevert) && b == NotDisarmed(rule.id))
  }

  lemma {:induction false} BlockersAre(rules: seq<Rule>, rows: seq<Row>, requested: map<int, int>, owned: set<int>,
                                       settings: map<string, string>, b: Blocker)
    requires |rules| == |rows|
    ensures b in Blockers(rules, rows, requested, owned, settings) <==>
      || (b == NotObserving && !("operating_mode" in settings && settings["operating_mode"] == "observe"))
      || (b == MasterSwitchOn &&
          !("automatic_actions_enabled" in settings && settings["automatic_actions_enabled"] in {"0", "false"}))
      || exists k | 0 <= k < |rules| && IsAffected(rows[k].memberDevices, requested) :: Hinders(rules[k], owned, b)
  {
    if rules != [] {
      var n := |rules| - 1;
      BlockersAre(rules[..n], rows[..n], requested, owned, settings, b);
      assert b in RuleBlockers(rules[n], owned) <==> Hinders(rules[n], owned, b);
      if k :| 0 <= k < |rules| && IsAffected(rows[k].memberDevices, requested) && Hinders(rules[k], owned, b) {
        assert k < n ==> rules[..n][k] == rules[k] && rows[..n][k] == rows[k];
      }
    }
  }

  /** The report names exactly what stands in the way. */
  lemma BlockersReported(s: Snapshot, items: seq<(int, int)>, r: Report, f: Fleet, owned: set<int>, b: Blocker)
    requires Planned(s, items) == Ok(r) && FleetOf(s, items) == Ok(f) && AddOwned(s.owned, {}) == Ok(owned)
    ensures b in r.blockers <==>
      || (b == NotObserving && !("operating_mode" in s.settings && s.settings["operating_mode"] == "observe"))
      || (b == MasterSwitchOn &&
          !("automatic_actions_enabled" in s.settings && s.settings["automatic_actions_enabled"] in {"0", "false"}))
      || exists rule | rule in s.rules && Touched(rule, f) :: Hinders(rule, owned, b)
  {
    var rules, rows := BlockersOf(s, items, r, f, owned);
    BlockersAre(rules, rows, f.requested, owned, s.settings, b);
    HinderedRules(s, f, owned, rules, rows, b);
  }

  lemma HinderedRules(s: Snapshot, f: Fleet, owned: set<int>, rules: seq<Rule>, rows: seq<Row>, b: Blocker)
    requires f.Sound() && RowsMatch(rules, rows, f) && forall rule :: rule in rules <==> rule in s.rules
    ensures (exists k | 0 <= k < |rules| && IsAffected(rows[k].memberDevices, f.requested) :: Hinders(rules[k], owned, b))
       <==> exists rule | rule in s.rules && Touched(rule, f) :: Hinders(rule, owned, b)
  {
    forall k | 0 <= k < |rules|
      ensures rules[k] in s.rules && (Touched(rules[k], f) <==> IsAffected(rows[k].memberDevices, f.requested))
    {
      assert rules[k] in rules && RowComputed(rules[k], rows[k], f);
      RowTouched(rules[k], rows[k], f);
    }
    if rule :| rule in s.rules && Touched(rule, f) && Hinders(rule, owned, b) {
      assert rule in rules;
      var k :| 0 <= k < |rules| && rules[k] == rule;
    }
  }
}
