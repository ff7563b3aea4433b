/**
 What the request lists of the retuning report do to a live fleet: no rule ever needs less evidence than
 before, wherever the changeover stops, and rolling back restores every value.
 */
module RetuneSafety {
  import opened Options
  import opened Sorting
  import opened RetunePlan
  import opened RetuneScript

  datatype Counts = Counts(fire: int, recovery: Option<int>)

  /** What the requests read and write: the counts of each rule, the interval of each device. */
  datatype Live = Live(rules: map<int, Counts>, interval: map<int, int>)

  /** PUT of one rule or device; a field absent from the body keeps its value. */
  function Send(l: Live, q: Request): Live {
    match q
    case PutRule(id, fire, recovery) =>
      if id in l.rules then
        l.(rules := l.rules[id := Counts(fire, if recovery.Some? then recovery else l.rules[id].recovery)])
      else l
    case PutDevice(id, seconds) =>
      if id in l.interval then l.(interval := l.interval[id := seconds]) else l
  }

  function Sends(l: Live, qs: seq<Request>): Live {
    if qs == [] then l else Send(Sends(l, qs[..|qs| - 1]), qs[|qs| - 1])
  }

  /** The fleet is as the snapshot captured it. */
  ghost predicate Captured(s: Snapshot, f: Fleet, l: Live) {
    && l.interval == f.devices
    && l.rules.Keys == (set r | r in s.rules :: r.id)
    && forall r | r in s.rules :: l.rules[r.id] == Counts(r.fire, r.recovery)
  }

  // ---- the guarantee ----

  /** The engine falls back on the fire count when no recovery count is stored. */
  function Recovery(c: Counts): int {
    if c.recovery.Some? then c.recovery.value else c.fire
  }

  /** Seconds between evaluations of a rule under the live intervals. */
  function Cadence(rule: Rule, used: seq<int>, rollup: int, l: Live): int
    requires forall d | d in used :: d in l.interval
  {
    Slowest(used, l.interval, Floor(rule.aggregation, rollup))
  }

  /** Counts under cadence c' demand at least the evidence the rule demanded when captured under cadence c. */
  ghost predicate NoWeaker(rule: Rule, now: Counts, c: int, c': int) {
    && now.fire * c' >= rule.fire * c
    && FireLower(rule.duration, now.fire, c') >= FireLower(rule.duration, rule.fire, c)
    && (rule.mode != "manual" ==>
          && Recovery(now) * c' >= Recovery(Counts(rule.fire, rule.recovery)) * c
          && RecoveryLower(Recovery(now), c') >= RecoveryLower(Recovery(Counts(rule.fire, rule.recovery)), c))
  }

  // ---- one row ----

  function Before(row: Row): Counts { Counts(row.oldFire, row.storedRecovery) }

  function Afterwards(row: Row): Counts { Counts(row.newFire, row.newRecovery) }

  /** The row of a rule, computed from the captured fleet. */
  ghost predicate RowFor(rule: Rule, row: Row, f: Fleet)
    requires f.Sound()
  {
    && Members(rule).Ok? && MemberDevices(rule.id, Members(rule).value, f.interfaces, []) == Ok(row.memberDevices)
    && row.memberDevices != [] && (forall d | d in row.memberDevices :: d in f.devices)
    && Retuned(rule, row.memberDevices, f) == Ok(row)
  }

  lemma {:induction false} SlowestMonotone(used: seq<int>, low: map<int, int>, high: map<int, int>, floor: int)
    requires forall d | d in used :: d in low && d in high && low[d] <= high[d]
    ensures Slowest(used, low, floor) <= Slowest(used, high, floor)
  {
    if used != [] {
      var front := used[..|used| - 1];
      assert used[|used| - 1] in used && forall d | d in front :: d in used;
      SlowestMonotone(front, low, high, floor);
    }
  }

  lemma MulMonotone(a: int, b: int, c: int, d: int)
    requires 0 <= a <= b && 0 <= c <= d
    ensures a * c <= b * d && 0 <= a * c
  {
    assert a * c <= b * c <= b * d;
  }

  /** A larger budget at a faster cadence has at least as many full gaps between its samples. */
  lemma GapsKept(before: int, after: int, c: int, c': int)
    requires 0 <= before && 0 <= after && 0 < c' <= c && after * c' >= before * c
    ensures Max(0, after - 1) * c' >= Max(0, before - 1) * c
    ensures RecoveryLower(after, c') >= RecoveryLower(before, c)
  {
    if before >= 1 {
      if after == 0 {
        MulMonotone(1, before, c, c);
        assert false;
      }
      assert (after - 1) * c' == after * c' - c' && (before - 1) * c == before * c - c;
    } else {
      MulMonotone(0, Max(0, after - 1), c', c');
    }
  }

  /** A rule whose members keep their intervals keeps its cadence. */
  lemma {:induction false} UnaffectedCadence(used: seq<int>, f: Fleet, floor: int)
    requires f.Sound() && (forall d | d in used :: d in f.devices) && !IsAffected(used, f.requested)
    ensures Slowest(used, f.Target(), floor) == Slowest(used, f.devices, floor)
  {
    if used != [] {
      var front := used[..|used| - 1];
      assert used[|used| - 1] in used && forall d | d in front :: d in used;
      UnaffectedCadence(front, f, floor);
    }
  }

  lemma RowFacts(rule: Rule, seen: set<int>, f: Fleet)
    requires f.Sound() && RowOf(rule, seen, f).Ok?
    ensures RowFor(rule, RowOf(rule, seen, f).value, f)
    ensures ValidFields(rule) && RowOf(rule, seen, f).value.ruleId == rule.id
    ensures Before(RowOf(rule, seen, f).value) == Counts(rule.fire, rule.recovery)
  {
    var used := MemberDevices(rule.id, Members(rule).value, f.interfaces, []).value;
    forall d | d in used ensures d in f.devices {
      var i :| i in f.interfaces && f.interfaces[i] == d;
    }
  }

  /** New counts at the target cadence meet the old budgets. */
  lemma BudgetsMet(rule: Rule, row: Row, f: Fleet)
    requires f.Sound() && RowFor(rule, row, f) && !IsFlow(rule.metric)
    ensures 0 < row.newCadence && 0 < row.oldCadence && 0 <= row.oldFire && 0 <= row.oldRecovery
    ensures 0 <= row.newFire && row.newFire * row.newCadence >= row.oldFire * row.oldCadence
    ensures rule.mode != "manual" ==>
      0 <= row.resolvedRecovery && row.resolvedRecovery * row.newCadence >= row.oldRecovery * row.oldCadence
  {
    var used, floor := row.memberDevices, Floor(rule.aggregation, f.rollup);
    SlowestPositive(used, f.devices, floor);
    SlowestPositive(used, f.Target(), floor);
    if !IsAffected(used, f.requested) {
      UnaffectedCadence(used, f, floor);
    } else {
      ScaledIsLeast(rule.fire, row.oldCadence, row.newCadence, row.newFire);
      if rule.mode != "manual" {
        ScaledIsLeast(row.oldRecovery, row.oldCadence, row.newCadence, row.resolvedRecovery);
      }
    }
  }

  /** Without a stored recovery count the fallback moves with the fire count. */
  lemma RecoveryOf(rule: Rule, row: Row, f: Fleet)
    requires f.Sound() && RowFor(rule, row, f) && rule.mode != "manual"
    ensures Recovery(Before(row)) == row.oldRecovery && Recovery(Afterwards(row)) == row.resolvedRecovery
  {
  }

  /** The guarantee for one rule, from the counts and intervals it finds itself under. */
  lemma RowSafe(rule: Rule, row: Row, f: Fleet, l: Live)
    requires f.Sound() && RowFor(rule, row, f) && !IsFlow(rule.metric)
    requires l.interval.Keys == f.devices.Keys
    requires forall d | d in f.devices :: f.Target()[d] <= l.interval[d] <= f.devices[d]
    requires row.ruleId in l.rules
    requires l.rules[row.ruleId] == Afterwards(row) || (l.rules[row.ruleId] == Before(row) && l.interval == f.devices)
    ensures NoWeaker(rule, l.rules[row.ruleId], row.oldCadence, Cadence(rule, row.memberDevices, f.rollup, l))
  {
    var used, floor := row.memberDevices, Floor(rule.aggregation, f.rollup);
    var c, c' := row.oldCadence, Slowest(used, l.interval, floor);
    if l.rules[row.ruleId] == Afterwards(row) {
      BudgetsMet(rule, row, f);
      SlowestMonotone(used, f.Target(), l.interval, floor);
      SlowestMonotone(used, l.interval, f.devices, floor);
      assert row.newCadence <= c' <= c;
      MulMonotone(row.newFire, row.newFire, row.newCadence, c');
      GapsKept(row.oldFire, row.newFire, c, c');
      if rule.mode != "manual" {
        RecoveryOf(rule, row, f);
        MulMonotone(row.resolvedRecovery, row.resolvedRecovery, row.newCadence, c');
        GapsKept(row.oldRecovery, row.resolvedRecovery, c, c');
      }
    }
  }

  // ---- the states the requests pass through ----

  /** Intervals as captured; each rule has its counts from before or after. */
  ghost predicate Counting(l: Live, rows: seq<Row>, f: Fleet) {
    && l.interval == f.devices
    && l.rules.Keys == RowIds(rows)
    && (forall k | 0 <= k < |rows| :: l.rules[rows[k].ruleId] in {Before(rows[k]), Afterwards(rows[k])})
  }

  /** Every rule has its new counts; each device has its interval from before or after. */
  ghost predicate Switching(l: Live, rows: seq<Row>, f: Fleet) {
    && l.interval.Keys == f.devices.Keys
    && (forall d | d in f.devices :: l.interval[d] in {f.devices[d], f.Target()[d]})
    && l.rules.Keys == RowIds(rows)
    && (forall k | 0 <= k < |rows| :: l.rules[rows[k].ruleId] == Afterwards(rows[k]))
  }

  predicate IsRequestOf(q: Request, rows: seq<Row>) {
    q.PutRule? && exists k | 0 <= k < |rows| :: q == ChangeOf(rows[k]) || q == UndoOf(rows[k])
  }

  /** newRecovery is stored exactly when the old count was. */
  ghost predicate SameStorage(rows: seq<Row>) {
    forall k | 0 <= k < |rows| :: rows[k].newRecovery.Some? == rows[k].storedRecovery.Some?
  }

  lemma CountingStep(l: Live, q: Request, rows: seq<Row>, f: Fleet)
    requires Counting(l, rows, f) && OwnRows(rows) && SameStorage(rows) && IsRequestOf(q, rows)
    ensures Counting(Send(l, q), rows, f)
  {
    var j :| 0 <= j < |rows| && (q == ChangeOf(rows[j]) || q == UndoOf(rows[j]));
    var l' := Send(l, q);
    forall k | 0 <= k < |rows| ensures l'.rules[rows[k].ruleId] in {Before(rows[k]), Afterwards(rows[k])} {
      if k != j {
        assert rows[k].ruleId != rows[j].ruleId;
      }
    }
  }

  lemma {:induction false} CountingKept(l: Live, qs: seq<Request>, rows: seq<Row>, f: Fleet)
    requires Counting(l, rows, f) && OwnRows(rows) && SameStorage(rows)
    requires forall q | q in qs :: IsRequestOf(q, rows)
    ensures Counting(Sends(l, qs), rows, f)
  {
    if qs != [] {
      var front := qs[..|qs| - 1];
      assert qs[|qs| - 1] in qs && forall q | q in front :: q in qs;
      CountingKept(l, front, rows, f);
      CountingStep(Sends(l, front), qs[|qs| - 1], rows, f);
    }
  }

  predicate IsDeviceRequest(q: Request, f: Fleet) {
    && q.PutDevice? && q.id in f.devices
    && (q.seconds == f.devices[q.id] || (q.id in f.requested && q.seconds == f.requested[q.id]))
  }

  lemma {:induction false} SwitchingKept(l: Live, qs: seq<Request>, rows: seq<Row>, f: Fleet)
    requires Switching(l, rows, f)
    requires forall q | q in qs :: IsDeviceRequest(q, f)
    ensures Switching(Sends(l, qs), rows, f)
  {
    if qs != [] {
      var front := qs[..|qs| - 1];
      assert qs[|qs| - 1] in qs && forall q | q in front :: q in qs;
      SwitchingKept(l, front, rows, f);
    }
  }

  /** While the intervals are the captured ones, putting devices back changes nothing. */
  lemma {:induction false} AlreadyBack(l: Live, qs: seq<Request>, f: Fleet)
    requires l.interval == f.devices
    requires forall q | q in qs :: q.PutDevice? && q.id in f.devices && q.seconds == f.devices[q.id]
    ensures Sends(l, qs) == l
  {
    if qs != [] {
      var front := qs[..|qs| - 1];
      assert qs[|qs| - 1] in qs && forall q | q in front :: q in qs;
      AlreadyBack(l, front, f);
      assert l.interval[qs[|qs| - 1].id := qs[|qs| - 1].seconds] == l.interval;
    }
  }

  lemma {:induction false} SendsInTwo(l: Live, a: seq<Request>, b: seq<Request>)
    ensures Sends(l, a + b) == Sends(Sends(l, a), b)
  {
    if b == [] {
      assert a + b == a;
    } else {
      SendsInTwo(l, a, b[..|b| - 1]);
      assert (a + b)[..|a + b| - 1] == a + b[..|b| - 1];
    }
  }

  // ---- where each list ends ----

  lemma RequestsAreRowRequests(rows: seq<Row>, n: nat, q: Request)
    requires n <= |rows|
    ensures q in RuleRequests(rows[..n]) || q in RuleRollback(rows[..n]) ==> IsRequestOf(q, rows)
  {
    if n > 0 {
      assert rows[..n][..n - 1] == rows[..n - 1];
      RequestsAreRowRequests(rows, n - 1, q);
    }
  }

  ghost predicate ChangedUpTo(l: Live, rows: seq<Row>, n: nat) {
    forall k | 0 <= k < n && k < |rows| :: rows[k].ruleId in l.rules && l.rules[rows[k].ruleId] == Afterwards(rows[k])
  }

  lemma OneChanged(l: Live, rows: seq<Row>, n: nat, f: Fleet)
    requires Counting(l, rows, f) && OwnRows(rows) && SameStorage(rows) && 0 < n <= |rows| && ChangedUpTo(l, rows, n - 1)
    ensures Counting(Send(l, ChangeOf(rows[n - 1])), rows, f)
    ensures ChangedUpTo(Send(l, ChangeOf(rows[n - 1])), rows, n)
  {
    assert IsRequestOf(ChangeOf(rows[n - 1]), rows);
    CountingStep(l, ChangeOf(rows[n - 1]), rows, f);
    assert rows[n - 1] in rows;
  }

  /** Once every rule request is sent, every rule has its new counts. */
  lemma {:induction false} AllChanged(l: Live, rows: seq<Row>, n: nat, f: Fleet)
    requires Counting(l, rows, f) && OwnRows(rows) && SameStorage(rows) && n <= |rows|
    ensures Counting(Sends(l, RuleRequests(rows[..n])), rows, f)
    ensures ChangedUpTo(Sends(l, RuleRequests(rows[..n])), rows, n)
    decreases n
  {
    if n > 0 {
      var row, done := rows[n - 1], RuleRequests(rows[..n - 1]);
      assert rows[..n][..n - 1] == rows[..n - 1];
      AllChanged(l, rows, n - 1, f);
      if Changed(row) {
        OneChanged(Sends(l, done), rows, n, f);
        assert (done + [ChangeOf(row)])[..|done|] == done;
      } else {
        Unchanged(Sends(l, done), rows, n, f);
        assert done + [] == done;
      }
    }
  }

  /** A rule the plan leaves alone has its new counts already: they are its old ones. */
  lemma Unchanged(l: Live, rows: seq<Row>, n: nat, f: Fleet)
    requires Counting(l, rows, f) && 0 < n <= |rows| && ChangedUpTo(l, rows, n - 1) && !Changed(rows[n - 1])
    ensures ChangedUpTo(l, rows, n)
  {
    assert rows[n - 1] in rows;
    assert Before(rows[n - 1]) == Afterwards(rows[n - 1]);
  }

  /** Once every rule is rolled back, every rule has its old counts. */
  lemma {:induction false} AllUndone(l: Live, rows: seq<Row>, n: nat, f: Fleet)
    requires Counting(l, rows, f) && OwnRows(rows) && SameStorage(rows) && n <= |rows|
    requires UndoneFrom(l, rows, n)
    ensures Counting(Sends(l, RuleRollback(rows[..n])), rows, f)
    ensures UndoneFrom(Sends(l, RuleRollback(rows[..n])), rows, 0)
    decreases n
  {
    if n > 0 {
      var row, rest := rows[n - 1], RuleRollback(rows[..n - 1]);
      assert rows[..n][..n - 1] == rows[..n - 1];
      if Changed(row) {
        OneUndone(l, rows, n, f, rest);
        AllUndone(Send(l, UndoOf(row)), rows, n - 1, f);
      } else {
        assert [] + rest == rest;
        AllUndone(l, rows, n - 1, f);
      }
    }
  }

  ghost predicate UndoneFrom(l: Live, rows: seq<Row>, n: nat) {
    forall k | n <= k < |rows| :: rows[k].ruleId in l.rules && l.rules[rows[k].ruleId] == Before(rows[k])
  }

  lemma OneUndone(l: Live, rows: seq<Row>, n: nat, f: Fleet, rest: seq<Request>)
    requires Counting(l, rows, f) && OwnRows(rows) && SameStorage(rows) && 0 < n <= |rows|
    requires UndoneFrom(l, rows, n)
    ensures Counting(Send(l, UndoOf(rows[n - 1])), rows, f)
    ensures UndoneFrom(Send(l, UndoOf(rows[n - 1])), rows, n - 1)
    ensures Sends(l, [UndoOf(rows[n - 1])] + rest) == Sends(Send(l, UndoOf(rows[n - 1])), rest)
  {
    var q := UndoOf(rows[n - 1]);
    assert IsRequestOf(q, rows);
    CountingStep(l, q, rows, f);
    assert [q][..0] == [];
    SendsInTwo(l, [q], rest);
    assert rows[n - 1] in rows;
  }

  /** Once the devices are put back, all intervals are the captured ones and no count has moved. */
  lemma {:induction false} DevicesBack(l: Live, ids: seq<int>, rows: seq<Row>, f: Fleet)
    requires Switching(l, rows, f) && (forall d | d in ids :: d in f.devices)
    ensures
      var l' := Sends(l, DeviceRequests(ids, f.devices));
      && l'.rules == l.rules && l'.interval.Keys == f.devices.Keys
      && forall d | d in f.devices :: l'.interval[d] == if d in ids then f.devices[d] else l.interval[d]
  {
    if ids != [] {
      var front, last := ids[..|ids| - 1], ids[|ids| - 1];
      assert last in ids && forall d | d in front :: d in ids;
      DevicesBack(l, front, rows, f);
      var done := DeviceRequests(front, f.devices);
      assert (done + [PutDevice(last, f.devices[last])])[..|done|] == done;
      assert ids == front + [last];
    }
  }

  lemma {:induction false} DeviceRequestsAre(ids: seq<int>, interval: map<int, int>, q: Request)
    requires forall d | d in ids :: d in interval
    ensures q in DeviceRequests(ids, interval) ==> q.PutDevice? && q.id in ids && q.seconds == interval[q.id]
  {
    if ids != [] {
      var front, last := ids[..|ids| - 1], ids[|ids| - 1];
      assert last in ids && forall d | d in front :: d in ids;
      DeviceRequestsAre(front, interval, q);
    }
  }

  // ---- the report ----

  /** The request lists of a report on fleet f with these rows, the candidate devices in ascending order. */
  ghost predicate Lists(f: Fleet, rows: seq<Row>, ids: seq<int>, r: Report) {
    && OwnRows(rows) && SameStorage(rows)
    && (forall d :: d in ids <==> d in f.requested) && (forall d :: d in Reversed(ids) <==> d in ids)
    && (forall d | d in f.requested :: d in f.devices)
    && ((r.apply == [] && r.rollback == [])
        || (&& r.apply == RuleRequests(rows) + DeviceRequests(ids, f.requested)
            && r.rollback == DeviceRequests(Reversed(ids), f.devices) + RuleRollback(rows)))
  }

  /** Row k is computed from rule k. */
  ghost predicate RowsMatch(rules: seq<Rule>, rows: seq<Row>, f: Fleet)
    requires f.Sound()
  {
    |rows| == |rules| && forall k | 0 <= k < |rules| :: RowComputed(rules[k], rows[k], f)
  }

  ghost predicate RowComputed(rule: Rule, row: Row, f: Fleet)
    requires f.Sound()
  {
    row.ruleId == rule.id && Before(row) == Counts(rule.fire, rule.recovery) && RowFor(rule, row, f)
  }

  lemma {:induction false} RowsComputed(all: seq<Rule>, n: nat, rows: seq<Row>, f: Fleet)
    requires f.Sound() && n <= |all| && RowsMatch(all[..n], rows, f) && AddRows(all[n..], rows, f).Ok?
    ensures RowsMatch(all, AddRows(all[n..], rows, f).value, f)
    decreases |all| - n
  {
    if n == |all| {
      assert all[..n] == all;
    } else {
      var row := RowOf(all[n], RowIds(rows), f).value;
      RowFacts(all[n], RowIds(rows), f);
      assert all[n..][1..] == all[n + 1..] && all[..n + 1] == all[..n] + [all[n]];
      RowsComputed(all, n + 1, rows + [row], f);
    }
  }

  lemma StorageKept(rule: Rule, row: Row, f: Fleet)
    requires f.Sound() && RowFor(rule, row, f)
    ensures row.newRecovery.Some? == row.storedRecovery.Some?
  {
  }

  lemma ReportOf(s: Snapshot, items: seq<(int, int)>, r: Report, f: Fleet) returns (rows: seq<Row>, ids: seq<int>)
    requires Planned(s, items) == Ok(r) && FleetOf(s, items) == Ok(f)
    ensures f.Sound() && Lists(f, rows, ids, r) && RowsMatch(SortBy(s.rules, RuleKey), rows, f)
    ensures AddRows(SortBy(s.rules, RuleKey), [], f) == Ok(rows)
  {
    var rules := SortBy(s.rules, RuleKey);
    rows := AddRows(rules, [], f).value;
    ids := SortBy(Firsts(items), Identity);
    CandidateIds(items, ids);
    RowsComputed(rules, 0, [], f) by { assert rules[0..] == rules && rules[..0] == []; }
    assert rules[0..] == rules;
    OwnRowsOf(rules, [], f);
    forall k | 0 <= k < |rows| ensures rows[k].newRecovery.Some? == rows[k].storedRecovery.Some? {
      assert RowComputed(rules[k], rows[k], f);
      StorageKept(rules[k], rows[k], f);
    }
  }

  lemma CapturedCounting(s: Snapshot, f: Fleet, rows: seq<Row>, l: Live)
    requires f.Sound() && RowsMatch(SortBy(s.rules, RuleKey), rows, f) && Captured(s, f, l)
    ensures Counting(l, rows, f) && UndoneFrom(l, rows, 0)
  {
    var rules := SortBy(s.rules, RuleKey);
    SortedMembers(s.rules, RuleKey);
    forall k | 0 <= k < |rows|
      ensures rows[k].ruleId in l.rules && l.rules[rows[k].ruleId] == Before(rows[k])
    {
      assert rules[k] in s.rules && RowComputed(rules[k], rows[k], f);
    }
    RowIdsAre(s, f, rows);
  }

  lemma RowIdsAre(s: Snapshot, f: Fleet, rows: seq<Row>)
    requires f.Sound() && RowsMatch(SortBy(s.rules, RuleKey), rows, f)
    ensures RowIds(rows) == set r | r in s.rules :: r.id
  {
    var rules := SortBy(s.rules, RuleKey);
    SortedMembers(s.rules, RuleKey);
    forall k | 0 <= k < |rows| ensures rows[k].ruleId == rules[k].id && rules[k] in s.rules {
      assert rules[k] in rules && RowComputed(rules[k], rows[k], f);
    }
    forall rule | rule in s.rules ensures rule.id in RowIds(rows) {
      var k := RowIndex(s, f, rows, rule);
      assert rows[k] in rows;
    }
    forall id | id in RowIds(rows) ensures exists rule | rule in s.rules :: rule.id == id {
      var row :| row in rows && row.ruleId == id;
      var k :| 0 <= k < |rows| && rows[k] == row;
    }
  }

  lemma RowIndex(s: Snapshot, f: Fleet, rows: seq<Row>, rule: Rule) returns (k: nat)
    requires f.Sound() && RowsMatch(SortBy(s.rules, RuleKey), rows, f) && rule in s.rules
    ensures k < |rows| && RowComputed(rule, rows[k], f)
  {
    var rules := SortBy(s.rules, RuleKey);
    SortedMembers(s.rules, RuleKey);
    assert rule in rules;
    k :| 0 <= k < |rules| && rules[k] == rule;
  }

  ghost predicate Between(l: Live, rows: seq<Row>, f: Fleet) {
    Counting(l, rows, f) || Switching(l, rows, f)
  }

  lemma PrefixOf<T>(a: seq<T>, b: seq<T>, k: nat)
    requires k <= |a + b|
    ensures (a + b)[..k] == if k <= |a| then a[..k] else a + b[..k - |a|]
  {
  }

  lemma CountsThenDevices(l: Live, f: Fleet, rows: seq<Row>, ids: seq<int>, n: nat)
    requires Counting(l, rows, f) && OwnRows(rows) && SameStorage(rows)
    requires (forall d | d in ids :: d in f.requested && d in f.devices)
    requires n <= |DeviceRequests(ids, f.requested)|
    ensures Switching(Sends(l, RuleRequests(rows) + DeviceRequests(ids, f.requested)[..n]), rows, f)
  {
    var rules, devices := RuleRequests(rows), DeviceRequests(ids, f.requested)[..n];
    AllChanged(l, rows, |rows|, f) by { assert rows[..|rows|] == rows; }
    assert rows[..|rows|] == rows;
    SendsInTwo(l, rules, devices);
    forall q | q in devices ensures IsDeviceRequest(q, f) {
      assert q in DeviceRequests(ids, f.requested);
      DeviceRequestsAre(ids, f.requested, q);
    }
    SwitchingKept(Sends(l, rules), devices, rows, f);
  }

  lemma SomeCounts(l: Live, f: Fleet, rows: seq<Row>, qs: seq<Request>, n: nat)
    requires Counting(l, rows, f) && OwnRows(rows) && SameStorage(rows)
    requires n <= |qs| && (qs == RuleRequests(rows) || qs == RuleRollback(rows))
    ensures Counting(Sends(l, qs[..n]), rows, f)
  {
    assert rows[..|rows|] == rows;
    forall q | q in qs[..n] ensures IsRequestOf(q, rows) {
      assert q in qs;
      RequestsAreRowRequests(rows, |rows|, q);
    }
    CountingKept(l, qs[..n], rows, f);
  }

  lemma ApplyPrefix(f: Fleet, rows: seq<Row>, ids: seq<int>, r: Report, l: Live, j: nat)
    requires Lists(f, rows, ids, r) && Counting(l, rows, f) && j <= |r.apply|
    ensures Between(Sends(l, r.apply[..j]), rows, f)
  {
    if r.apply != [] {
      var rules, devices := RuleRequests(rows), DeviceRequests(ids, f.requested);
      PrefixOf(rules, devices, j);
      if j <= |rules| {
        SomeCounts(l, f, rows, rules, j);
      } else {
        CountsThenDevices(l, f, rows, ids, j - |rules|);
      }
    }
  }

  lemma SomeDevicesBack(l: Live, f: Fleet, rows: seq<Row>, ids: seq<int>, n: nat)
    requires Between(l, rows, f) && (forall d | d in ids :: d in f.devices)
    requires n <= |DeviceRequests(ids, f.devices)|
    ensures Between(Sends(l, DeviceRequests(ids, f.devices)[..n]), rows, f)
  {
    var qs := DeviceRequests(ids, f.devices)[..n];
    forall q | q in qs ensures q.PutDevice? && q.id in f.devices && q.seconds == f.devices[q.id] {
      assert q in DeviceRequests(ids, f.devices);
      DeviceRequestsAre(ids, f.devices, q);
    }
    if Counting(l, rows, f) {
      AlreadyBack(l, qs, f);
    } else {
      SwitchingKept(l, qs, rows, f);
    }
  }

  /** From anywhere between the fleets, putting all devices back leaves only counts to restore. */
  lemma DevicesThenCounting(l: Live, ids: seq<int>, rows: seq<Row>, f: Fleet)
    requires Between(l, rows, f)
    requires (forall d | d in ids :: d in f.devices) && (forall d | d in f.requested :: d in ids)
    ensures Counting(Sends(l, DeviceRequests(ids, f.devices)), rows, f)
  {
    var back := DeviceRequests(ids, f.devices);
    if Counting(l, rows, f) {
      forall q | q in back ensures q.PutDevice? && q.id in f.devices && q.seconds == f.devices[q.id] {
        DeviceRequestsAre(ids, f.devices, q);
      }
      AlreadyBack(l, back, f);
    } else {
      DevicesBack(l, ids, rows, f);
      var l' := Sends(l, back);
      forall d | d in f.devices ensures l'.interval[d] == f.devices[d] {
        assert l.interval[d] in {f.devices[d], f.Target()[d]};
      }
      assert l'.interval == f.devices;
    }
  }

  /** Putting some devices back, then some rules, stays between the two fleets. */
  lemma RollbackPrefix(f: Fleet, rows: seq<Row>, ids: seq<int>, r: Report, l: Live, k: nat)
    requires Lists(f, rows, ids, r) && Between(l, rows, f) && k <= |r.rollback|
    ensures Between(Sends(l, r.rollback[..k]), rows, f)
  {
    if r.rollback != [] {
      var devices, rules := DeviceRequests(Reversed(ids), f.devices), RuleRollback(rows);
      PrefixOf(devices, rules, k);
      if k <= |devices| {
        SomeDevicesBack(l, f, rows, Reversed(ids), k);
      } else {
        SendsInTwo(l, devices, rules[..k - |devices|]);
        DevicesThenCounting(l, Reversed(ids), rows, f);
        SomeCounts(Sends(l, devices), f, rows, rules, k - |devices|);
      }
    }
  }

  // ---- main theorems ----

  /** The member devices of a rule the planner accepted. */
  function Used(rule: Rule, f: Fleet): (r: seq<int>)
    requires f.Sound()
    ensures forall d | d in r :: d in f.devices
  {
    if Members(rule).Err? then []
    else
      var found := MemberDevices(rule.id, Members(rule).value, f.interfaces, []);
      if found.Err? then [] else found.value
  }

  /** The fleet after j requests of the changeover and then k of the rollback. */
  function Stopped(l: Live, r: Report, j: nat, k: nat): Live
    requires j <= |r.apply| && k <= |r.rollback|
  {
    Sends(Sends(l, r.apply[..j]), r.rollback[..k])
  }

  lemma BetweenIsSafe(rule: Rule, rows: seq<Row>, n: nat, f: Fleet, l: Live)
    requires f.Sound() && n < |rows| && RowComputed(rule, rows[n], f) && !IsFlow(rule.metric) && Between(l, rows, f)
    ensures l.interval.Keys == f.devices.Keys && rule.id in l.rules && Used(rule, f) == rows[n].memberDevices
    ensures NoWeaker(rule, l.rules[rule.id], rows[n].oldCadence, Cadence(rule, Used(rule, f), f.rollup, l))
  {
    assert rows[n] in rows;
    forall d | d in f.devices ensures f.Target()[d] <= l.interval[d] <= f.devices[d] {
      assert Switching(l, rows, f) ==> l.interval[d] in {f.devices[d], f.Target()[d]};
    }
    assert Counting(l, rows, f) ==> l.rules[rows[n].ruleId] in {Before(rows[n]), Afterwards(rows[n])};
    RowSafe(rule, rows[n], f, l);
  }

  lemma StoppedIsSafe(f: Fleet, rows: seq<Row>, ids: seq<int>, r: Report, l: Live, j: nat, k: nat, rule: Rule, n: nat)
    requires f.Sound() && Lists(f, rows, ids, r) && Counting(l, rows, f) && j <= |r.apply| && k <= |r.rollback|
    requires n < |rows| && RowComputed(rule, rows[n], f) && !IsFlow(rule.metric)
    ensures
      var now := Stopped(l, r, j, k);
      var used := Used(rule, f);
      && used != [] && rule.id in now.rules && now.interval.Keys == f.devices.Keys && l.interval == f.devices
      && NoWeaker(rule, now.rules[rule.id], Cadence(rule, used, f.rollup, l), Cadence(rule, used, f.rollup, now))
  {
    ApplyPrefix(f, rows, ids, r, l, j);
    RollbackPrefix(f, rows, ids, r, Sends(l, r.apply[..j]), k);
    BetweenIsSafe(rule, rows, n, f, Stopped(l, r, j, k));
  }

  /**
   Wherever the changeover stops, and however far the rollback then gets, a rule that is not flow-based
   demands at least as much evidence to fire, and to recover unless recovery is manual, as it did when captured.
   */
  lemma StopsAreSafe(s: Snapshot, items: seq<(int, int)>, r: Report, f: Fleet, l: Live, j: nat, k: nat, rule: Rule)
    requires Planned(s, items) == Ok(r) && FleetOf(s, items) == Ok(f) && Captured(s, f, l)
    requires j <= |r.apply| && k <= |r.rollback|
    requires rule in s.rules && !IsFlow(rule.metric)
    ensures
      var now := Stopped(l, r, j, k);
      var used := Used(rule, f);
      && used != [] && rule.id in now.rules && now.interval.Keys == f.devices.Keys
      && NoWeaker(rule, now.rules[rule.id], Cadence(rule, used, f.rollup, l), Cadence(rule, used, f.rollup, now))
  {
    var rows, ids := ReportOf(s, items, r, f);
    CapturedCounting(s, f, rows, l);
    var n := RowIndex(s, f, rows, rule);
    StoppedIsSafe(f, rows, ids, r, l, j, k, rule, n);
  }

  lemma RolledBack(f: Fleet, rows: seq<Row>, ids: seq<int>, r: Report, l: Live)
    requires Lists(f, rows, ids, r) && r.rollback != [] && Between(l, rows, f)
    ensures Counting(Sends(l, r.rollback), rows, f) && UndoneFrom(Sends(l, r.rollback), rows, 0)
  {
    var devices := DeviceRequests(Reversed(ids), f.devices);
    assert rows[..|rows|] == rows;
    SendsInTwo(l, devices, RuleRollback(rows));
    DevicesThenCounting(l, Reversed(ids), rows, f);
    AllUndone(Sends(l, devices), rows, |rows|, f);
  }

  lemma SameCounts(a: Live, b: Live, rows: seq<Row>, f: Fleet)
    requires Counting(a, rows, f) && UndoneFrom(a, rows, 0) && Counting(b, rows, f) && UndoneFrom(b, rows, 0)
    ensures a == b
  {
    forall id | id in a.rules ensures b.rules[id] == a.rules[id] {
      var row :| row in rows && row.ruleId == id;
      var k :| 0 <= k < |rows| && rows[k] == row;
    }
    assert a.rules == b.rules;
  }

  /** Nothing to roll back means nothing was sent. */
  lemma NothingSent(f: Fleet, rows: seq<Row>, ids: seq<int>, r: Report)
    requires Lists(f, rows, ids, r) && r.rollback == []
    ensures r.apply == []
  {
    assert rows[..|rows|] == rows;
    if RuleRollback(rows) == [] {
      NoChange(rows, |rows|);
    }
  }

  lemma {:induction false} NoChange(rows: seq<Row>, n: nat)
    requires n <= |rows| && RuleRollback(rows[..n]) == []
    ensures RuleRequests(rows[..n]) == []
  {
    if n > 0 {
      assert rows[..n][..n - 1] == rows[..n - 1];
      NoChange(rows, n - 1);
    }
  }

  /** Sending the whole rollback after any part of the changeover restores the captured fleet exactly. */
  lemma RollbackRestores(s: Snapshot, items: seq<(int, int)>, r: Report, f: Fleet, l: Live, j: nat)
    requires Planned(s, items) == Ok(r) && FleetOf(s, items) == Ok(f) && Captured(s, f, l)
    requires j <= |r.apply|
    ensures Stopped(l, r, j, |r.rollback|) == l
  {
    var rows, ids := ReportOf(s, items, r, f);
    CapturedCounting(s, f, rows, l);
    CountingRestored(f, rows, ids, r, l, j);
  }

  lemma CountingRestored(f: Fleet, rows: seq<Row>, ids: seq<int>, r: Report, l: Live, j: nat)
    requires Lists(f, rows, ids, r) && Counting(l, rows, f) && UndoneFrom(l, rows, 0) && j <= |r.apply|
    ensures Stopped(l, r, j, |r.rollback|) == l
  {
    ApplyPrefix(f, rows, ids, r, l, j);
    assert r.rollback[..|r.rollback|] == r.rollback;
    if r.rollback == [] {
      NothingSent(f, rows, ids, r);
    } else {
      RolledBack(f, rows, ids, r, Sends(l, r.apply[..j]));
      SameCounts(l, Stopped(l, r, j, |r.rollback|), rows, f);
    }
  }

  /**
   A new count is the least that spans the old budget at the new cadence, and no figure the report prints for a
   rule that is not flow-based is smaller after than before; rules no candidate touches keep their counts.
   */
  lemma BudgetsAndFigures(rule: Rule, row: Row, f: Fleet)
    requires f.Sound() && RowFor(rule, row, f) && ValidFields(rule) && !IsFlow(rule.metric)
    ensures row.newFire * row.newCadence >= row.oldFire * row.oldCadence
    ensures row.fireLowerAfter >= row.fireLowerBefore
    ensures rule.mode != "manual" ==>
      && row.resolvedRecovery * row.newCadence >= row.oldRecovery * row.oldCadence
      && row.recoveryLowerAfter >= row.recoveryLowerBefore
    ensures IsAffected(row.memberDevices, f.requested) ==>
      && (forall w: nat | w * row.newCadence >= row.oldFire * row.oldCadence :: w >= row.newFire)
      && (rule.mode != "manual" ==>
            forall w: nat | w * row.newCadence >= row.oldRecovery * row.oldCadence :: w >= row.resolvedRecovery)
    ensures !IsAffected(row.memberDevices, f.requested) ==> !Changed(row) && row.newCadence == row.oldCadence
  {
    var used, floor := row.memberDevices, Floor(rule.aggregation, f.rollup);
    BudgetsMet(rule, row, f);
    SlowestMonotone(used, f.Target(), f.devices, floor);
    GapsKept(row.oldFire, row.newFire, row.oldCadence, row.newCadence);
    if rule.mode != "manual" {
      GapsKept(row.oldRecovery, row.resolvedRecovery, row.oldCadence, row.newCadence);
    }
    if IsAffected(used, f.requested) {
      ScaledIsLeast(rule.fire, row.oldCadence, row.newCadence, row.newFire);
      if rule.mode != "manual" {
        ScaledIsLeast(row.oldRecovery, row.oldCadence, row.newCadence, row.resolvedRecovery);
      }
    } else {
      UnaffectedCadence(used, f, floor);
    }
  }

  // ---- fail closed ----

  /** Nothing stands in the way of retuning this rule. */
  predicate Free(rule: Rule, owned: set<int>) {
    rule.state == "clear" && rule.id !in owned && !rule.ownedRunActive && !rule.autoReroute && !rule.autoRevert
  }

  predicate Observing(settings: map<string, string>) {
    && "operating_mode" in settings && settings["operating_mode"] == "observe"
    && "automatic_actions_enabled" in settings && settings["automatic_actions_enabled"] in ["0", "false"]
  }

  lemma {:induction false} NoBlockersIff(rules: seq<Rule>, rows: seq<Row>, requested: map<int, int>, owned: set<int>, settings: map<string, string>)
    requires |rules| == |rows|
    ensures Blockers(rules, rows, requested, owned, settings) == {} <==>
      && Observing(settings)
      && forall k | 0 <= k < |rules| && IsAffected(rows[k].memberDevices, requested) :: Free(rules[k], owned)
  {
    if rules == [] {
    } else {
      var n := |rules| - 1;
      NoBlockersIff(rules[..n], rows[..n], requested, owned, settings);
      var last := if IsAffected(rows[n].memberDevices, requested) then RuleBlockers(rules[n], owned) else {};
      assert last == {} <==> (IsAffected(rows[n].memberDevices, requested) ==> Free(rules[n], owned));
      EmptyUnion(Blockers(rules[..n], rows[..n], requested, owned, settings), last);
    }
  }

  lemma EmptyUnion<T>(a: set<T>, b: set<T>)
    ensures a + b == {} <==> a == {} && b == {}
  {
    if a + b == {} {
      assert forall x | x in a :: x in a + b;
      assert forall x | x in b :: x in a + b;
    }
  }

  /**
   The report carries requests only when the system observes, automatic actions are off, and every rule a candidate
   touches is clear, disarmed and without owned work.
   */
  lemma FailsClosed(s: Snapshot, items: seq<(int, int)>, r: Report, f: Fleet, owned: set<int>, rule: Rule)
    requires Planned(s, items) == Ok(r) && FleetOf(s, items) == Ok(f) && AddOwned(s.owned, {}) == Ok(owned)
    requires r.apply != [] || r.rollback != []
    requires rule in s.rules && IsAffected(Used(rule, f), f.requested)
    ensures Observing(s.settings) && Free(rule, owned)
  {
    var rows, ids := ReportOf(s, items, r, f);
    var rules := SortBy(s.rules, RuleKey);
    NoBlockersIff(rules, rows, f.requested, owned, s.settings);
    SortedMembers(s.rules, RuleKey);
    assert rule in rules;
    var k :| 0 <= k < |rules| && rules[k] == rule;
    assert RowComputed(rules[k], rows[k], f);
    assert Blockers(rules, rows, f.requested, owned, s.settings) == {};
  }
}
