/**
 scripts/retune-sample-counts.py: when devices are polled faster, how many consecutive samples every rule
 needs to keep its evidence, and the requests that change the fleet over and back.
 */
module RetunePlan {
  import opened Options
  import opened Sorting

  const MAX_COUNT := 0xFFFF_FFFF
  const SHORTEST_POLL := 5

  datatype Error =
    | NotAnInteger
    | DuplicateDevice(id: int)
    | InvalidInterface(id: int)
    | DuplicateCandidate(id: int)
    | CandidateMissing(id: int)
    | CandidateNotFaster(id: int)
    | DuplicateOwnedRun(id: int)
    | DuplicateRule(id: int)
    | MetricMissing(id: int)
    | AggregationUnsupported(id: int)
    | NoMembership(id: int)
    | DuplicateMembers(id: int)
    | MemberMissing(id: int, interfaceId: int)
    | RecoveryModeInvalid(id: int)
    | CountOverflows
    | OwnedRunUnknown

  datatype Rule = Rule(
    id: int,
    metric: string,
    aggregation: string,
    interfaceId: Option<int>,
    members: seq<int>,
    fire: int,
    mode: string,
    recovery: Option<int>,
    duration: int,
    window: Option<int>,
    state: string,
    autoReroute: bool,
    autoRevert: bool,
    ownedRunActive: bool
  )

  /** `devices` holds (id, poll interval), `interfaces` (id, device). */
  datatype Snapshot = Snapshot(
    devices: seq<(int, int)>,
    interfaces: seq<(int, int)>,
    rules: seq<Rule>,
    settings: map<string, string>,
    owned: seq<int>,
    rollup: int
  )

  datatype Row = Row(
    ruleId: int,
    memberDevices: seq<int>,
    oldCadence: int,
    newCadence: int,
    oldFire: int,
    newFire: int,
    storedRecovery: Option<int>,
    newRecovery: Option<int>,
    oldRecovery: int,
    resolvedRecovery: int,
    fireLowerBefore: int,
    fireLowerAfter: int,
    recoveryLowerBefore: int,
    recoveryLowerAfter: int
  )

  datatype Blocker =
    | NotObserving
    | MasterSwitchOn
    | NotClear(id: int)
    | OwnedWork(id: int)
    | NotDisarmed(id: int)

  /** A PUT; fields left out of a rule's body keep their value. */
  datatype Request =
    | PutRule(id: int, fire: int, recovery: Option<int>)
    | PutDevice(id: int, seconds: int)

  datatype Report = Report(table: seq<Row>, blockers: set<Blocker>, apply: seq<Request>, rollback: seq<Request>)

  // ---- the arithmetic ----

  /** _scaled */
  function Scaled(count: int, oldCadence: int, newCadence: int): Result<int, Error>
    requires newCadence > 0
  {
    if count == 0 then Ok(0)
    else
      var value := (count * oldCadence + newCadence - 1) / newCadence;
      if value > MAX_COUNT then Err(CountOverflows) else Ok(value)
  }

  lemma Monotone(a: int, b: int, c: int)
    requires a <= b && c >= 0
    ensures a * c <= b * c
  {
    assert (b - a) * c >= 0;
  }

  /** The rounded-up quotient: the first multiple of c that reaches p. */
  lemma Ceiling(p: int, c: int, v: int)
    requires p >= 0 && c > 0 && v == (p + c - 1) / c
    ensures v * c >= p > (v - 1) * c && v >= 0
  {
    var q := p + c - 1;
    assert q == v * c + q % c;
    assert (v - 1) * c == v * c - c;
  }

  /** The scaled count is the least that still spans the old budget. */
  lemma ScaledIsLeast(count: int, oldCadence: int, newCadence: int, v: int)
    requires count >= 0 && oldCadence > 0 && newCadence > 0
    requires Scaled(count, oldCadence, newCadence) == Ok(v)
    ensures v >= 0 && v * newCadence >= count * oldCadence
    ensures forall w: nat | w * newCadence >= count * oldCadence :: w >= v
  {
    if count > 0 {
      Monotone(0, count, oldCadence);
      Ceiling(count * oldCadence, newCadence, v);
      forall w: nat | w * newCadence >= count * oldCadence ensures w >= v {
        if w < v { Monotone(w, v - 1, newCadence); }
      }
    }
  }

  /** It is refused exactly when even the largest u32 count would not span the old budget. */
  lemma OverflowIff(count: int, oldCadence: int, newCadence: int)
    requires count >= 0 && oldCadence > 0 && newCadence > 0
    ensures Scaled(count, oldCadence, newCadence).Err? <==> MAX_COUNT * newCadence < count * oldCadence
  {
    if count > 0 {
      Monotone(0, count, oldCadence);
      var v := (count * oldCadence + newCadence - 1) / newCadence;
      Ceiling(count * oldCadence, newCadence, v);
      if v > MAX_COUNT {
        Monotone(MAX_COUNT, v - 1, newCadence);
      } else {
        Monotone(v, MAX_COUNT, newCadence);
      }
    }
  }

  function Max(a: int, b: int): int { if a < b then b else a }

  predicate StartsWith(s: string, prefix: string) { prefix <= s }

  predicate IsFlow(metric: string) {
    StartsWith(metric, "flow_") || StartsWith(metric, "netflow_") || StartsWith(metric, "sflow_")
  }

  /** The slowest of the devices, and of `floor`. */
  function Slowest(devices: seq<int>, interval: map<int, int>, floor: int): int
    requires forall d | d in devices :: d in interval
  {
    if devices == [] then floor
    else
      var front, last := devices[..|devices| - 1], devices[|devices| - 1];
      assert devices == front + [last];
      Max(interval[last], Slowest(front, interval, floor))
  }

  lemma {:induction false} SlowestIs(devices: seq<int>, interval: map<int, int>, floor: int)
    requires forall d | d in devices :: d in interval
    ensures floor <= Slowest(devices, interval, floor) && forall d | d in devices :: interval[d] <= Slowest(devices, interval, floor)
    ensures
      var r := Slowest(devices, interval, floor);
      r == floor || exists d | d in devices :: interval[d] == r
  {
    if devices != [] {
      var front, last := devices[..|devices| - 1], devices[|devices| - 1];
      assert devices == front + [last];
      SlowestIs(front, interval, floor);
    }
  }

  /** An aggregate rule is evaluated no faster than the metrics rollup. */
  function Floor(aggregation: string, rollup: int): int {
    if aggregation == "sum" then rollup else 0
  }

  // ---- _index ----

  /** The rest of the device rows, added to those read so far. */
  function AddDevices(rows: seq<(int, int)>, devices: map<int, int>): (r: Result<map<int, int>, Error>)
    ensures r.Ok? && (forall d | d in devices :: devices[d] >= SHORTEST_POLL) ==>
      forall d | d in r.value :: r.value[d] >= SHORTEST_POLL
  {
    if rows == [] then Ok(devices)
    else
      var (id, interval) := rows[0];
      if id < 1 then Err(NotAnInteger)
      else if id in devices then Err(DuplicateDevice(id))
      else if interval < SHORTEST_POLL then Err(NotAnInteger)
      else AddDevices(rows[1..], devices[id := interval])
  }

  function AddInterfaces(rows: seq<(int, int)>, interfaces: map<int, int>, devices: map<int, int>): (r: Result<map<int, int>, Error>)
    ensures r.Ok? && (forall i | i in interfaces :: interfaces[i] in devices) ==>
      forall i | i in r.value :: r.value[i] in devices
  {
    if rows == [] then Ok(interfaces)
    else
      var (id, device) := rows[0];
      if id < 1 || device < 1 then Err(NotAnInteger)
      else if id in interfaces || device !in devices then Err(InvalidInterface(id))
      else AddInterfaces(rows[1..], interfaces[id := device], devices)
  }

  function Indexed(s: Snapshot): Result<(map<int, int>, map<int, int>), Error> {
    var devices :- AddDevices(s.devices, map[]);
    var interfaces :- AddInterfaces(s.interfaces, map[], devices);
    Ok((devices, interfaces))
  }

  // ---- plan: what one rule needs ----

  /** The snapshot's lookup tables and the candidate intervals. */
  datatype Fleet = Fleet(devices: map<int, int>, interfaces: map<int, int>, requested: map<int, int>, rollup: int) {
    ghost predicate Sound() {
      && rollup >= 1
      && (forall d | d in devices :: devices[d] >= SHORTEST_POLL)
      && (forall i | i in interfaces :: interfaces[i] in devices)
      && (forall d | d in requested :: d in devices && SHORTEST_POLL <= requested[d] < devices[d])
    }

    /** The intervals once every candidate is in force. */
    function Target(): map<int, int> {
      devices + requested
    }
  }

  /** parse_candidates: one DEVICE=SECONDS option per device. */
  function Parsed(items: seq<(int, int)>, seen: set<int>): (r: Result<set<int>, Error>)
    ensures r.Ok? ==> r.value == seen + (set x | x in items :: x.0)
    ensures r.Ok? ==> (forall k | 0 <= k < |items| :: items[k].0 !in seen)
    ensures r.Ok? ==> (forall j, k | 0 <= j < k < |items| :: items[j].0 != items[k].0)
  {
    if items == [] then Ok(seen)
    else if items[0].0 in seen then Err(DuplicateCandidate(items[0].0))
    else
      assert items == [items[0]] + items[1..];
      Parsed(items[1..], seen + {items[0].0})
  }

  function AddCandidates(items: seq<(int, int)>, requested: map<int, int>, devices: map<int, int>): (r: Result<map<int, int>, Error>)
    ensures r.Ok? && (forall d | d in requested :: d in devices && SHORTEST_POLL <= requested[d] < devices[d]) ==>
      forall d | d in r.value :: d in devices && SHORTEST_POLL <= r.value[d] < devices[d]
    ensures r.Ok? ==> r.value.Keys == requested.Keys + set x | x in items :: x.0
  {
    if items == [] then Ok(requested)
    else
      var (id, interval) := items[0];
      assert items == [items[0]] + items[1..];
      if id < 1 || interval < SHORTEST_POLL then Err(NotAnInteger)
      else if id !in devices then Err(CandidateMissing(id))
      else if interval >= devices[id] then Err(CandidateNotFaster(id))
      else AddCandidates(items[1..], requested[id := interval], devices)
  }

  function AddOwned(ids: seq<int>, owned: set<int>): Result<set<int>, Error> {
    if ids == [] then Ok(owned)
    else if ids[0] < 1 then Err(NotAnInteger)
    else if ids[0] in owned then Err(DuplicateOwnedRun(ids[0]))
    else AddOwned(ids[1..], owned + {ids[0]})
  }

  predicate NoDuplicates(s: seq<int>) {
    |set x | x in s| == |s|
  }

  /** The explicit members of an aggregate rule; otherwise the members if any, else the rule's own interface. */
  function Members(rule: Rule): (r: Result<seq<int>, Error>)
    ensures r.Ok? ==> r.value != []
  {
    if rule.aggregation != "single" && rule.aggregation != "sum" then Err(AggregationUnsupported(rule.id))
    else
      var members :=
        if rule.aggregation == "sum" || rule.members != [] then rule.members
        else if rule.interfaceId.Some? && rule.interfaceId.value != 0 then [rule.interfaceId.value]
        else [];
      if members == [] then Err(NoMembership(rule.id))
      else if !NoDuplicates(members) then Err(DuplicateMembers(rule.id))
      else Ok(members)
  }

  /** The devices of the members, after those already found. */
  function MemberDevices(id: int, members: seq<int>, interfaces: map<int, int>, found: seq<int>): (r: Result<seq<int>, Error>)
    ensures r.Ok? ==> |r.value| == |found| + |members| && forall d | d in r.value :: d in found || exists i | i in interfaces :: interfaces[i] == d
  {
    if members == [] then Ok(found)
    else if members[0] !in interfaces then Err(MemberMissing(id, members[0]))
    else MemberDevices(id, members[1..], interfaces, found + [interfaces[members[0]]])
  }

  predicate IsAffected(devices: seq<int>, requested: map<int, int>) {
    exists d | d in devices :: d in requested
  }

  /** The engine treats a recovery count of zero as one. */
  function RecoveryLower(count: int, cadence: int): int {
    Max(0, Max(1, count) - 1) * cadence
  }

  function FireLower(duration: int, count: int, cadence: int): int {
    Max(duration, Max(0, count - 1) * cadence)
  }

  lemma {:induction false} SlowestPositive(used: seq<int>, interval: map<int, int>, floor: int)
    requires floor >= 0 && used != [] && (forall d | d in used :: d in interval && interval[d] >= SHORTEST_POLL)
    ensures Slowest(used, interval, floor) >= SHORTEST_POLL
  {
    if |used| > 1 {
      assert forall d | d in used[..|used| - 1] :: d in used;
      SlowestPositive(used[..|used| - 1], interval, floor);
    }
    assert used[|used| - 1] in used;
  }

  /** The counts and figures of one rule, once its members' devices are known. */
  function Retuned(rule: Rule, used: seq<int>, f: Fleet): Result<Row, Error>
    requires f.Sound() && used != [] && (forall d | d in used :: d in f.devices)
  {
    var floor := Floor(rule.aggregation, f.rollup);
    var oldCadence := Slowest(used, f.devices, floor);
    var newCadence := Slowest(used, f.Target(), floor);
    SlowestPositive(used, f.Target(), floor);
    var flow := IsFlow(rule.metric);
    var still := flow || !IsAffected(used, f.requested);
    var active := rule.mode != "manual";
    if rule.fire < 0 then Err(NotAnInteger)
    else if rule.mode != "auto" && rule.mode != "threshold" && rule.mode != "manual" then Err(RecoveryModeInvalid(rule.id))
    else if rule.recovery.Some? && rule.recovery.value < 0 then Err(NotAnInteger)
    else
      var oldRecovery := if rule.recovery.Some? then rule.recovery.value else rule.fire;
      var newFire :- if still then Ok(rule.fire) else Scaled(rule.fire, oldCadence, newCadence);
      var newRecovery :- if still || !active then Ok(oldRecovery) else Scaled(oldRecovery, oldCadence, newCadence);
      var flowRecovery := if rule.mode == "threshold" && rule.window.Some? then rule.window.value else rule.duration;
      Ok(Row(
           rule.id, used, oldCadence, newCadence, rule.fire, newFire,
           rule.recovery,
           if active && rule.recovery.Some? then Some(newRecovery) else rule.recovery,
           oldRecovery, newRecovery,
           FireLower(rule.duration, rule.fire, oldCadence),
           FireLower(rule.duration, newFire, newCadence),
           if flow then flowRecovery else RecoveryLower(oldRecovery, oldCadence),
           if flow then flowRecovery else RecoveryLower(newRecovery, newCadence)))
  }

  predicate ValidFields(rule: Rule) {
    rule.duration >= 0 && (rule.window.Some? ==> rule.window.value >= 0)
  }

  function RowOf(rule: Rule, seen: set<int>, f: Fleet): Result<Row, Error>
    requires f.Sound()
  {
    if rule.id < 1 then Err(NotAnInteger)
    else if rule.id in seen then Err(DuplicateRule(rule.id))
    else if rule.metric == "" then Err(MetricMissing(rule.id))
    else if !ValidFields(rule) then Err(NotAnInteger)
    else
      var members :- Members(rule);
      var used :- MemberDevices(rule.id, members, f.interfaces, []);
      assert forall d | d in used :: d in f.devices by {
        forall d | d in used ensures d in f.devices {
          var i :| i in f.interfaces && f.interfaces[i] == d;
        }
      }
      Retuned(rule, used, f)
  }

  function RowIds(rows: seq<Row>): set<int> {
    set r | r in rows :: r.ruleId
  }

  function AddRows(rules: seq<Rule>, rows: seq<Row>, f: Fleet): (r: Result<seq<Row>, Error>)
    requires f.Sound()
    ensures r.Ok? ==> |r.value| == |rows| + |rules|
    decreases |rules|
  {
    if rules == [] then Ok(rows)
    else
      var row :- RowOf(rules[0], RowIds(rows), f);
      AddRows(rules[1..], rows + [row], f)
  }

  // ---- plan: what stands in the way ----

  function SettingsBlockers(settings: map<string, string>): set<Blocker> {
    (if "operating_mode" !in settings || settings["operating_mode"] != "observe" then {NotObserving} else {})
    + (if "automatic_actions_enabled" !in settings || settings["automatic_actions_enabled"] !in ["0", "false"]
       then {MasterSwitchOn} else {})
  }

  function RuleBlockers(rule: Rule, owned: set<int>): set<Blocker> {
    (if rule.state != "clear" then {NotClear(rule.id)} else {})
    + (if rule.id in owned || rule.ownedRunActive then {OwnedWork(rule.id)} else {})
    + (if rule.autoReroute || rule.autoRevert then {NotDisarmed(rule.id)} else {})
  }

  function Blockers(rules: seq<Rule>, rows: seq<Row>, requested: map<int, int>, owned: set<int>, settings: map<string, string>): set<Blocker>
    requires |rules| == |rows|
  {
    if rules == [] then SettingsBlockers(settings)
    else
      var n := |rules| - 1;
      Blockers(rules[..n], rows[..n], requested, owned, settings)
      + if IsAffected(rows[n].memberDevices, requested) then RuleBlockers(rules[n], owned) else {}
  }

  // ---- plan: the requests ----

  predicate Changed(row: Row) {
    row.newFire != row.oldFire || row.newRecovery != row.storedRecovery
  }

  function ChangeOf(row: Row): Request {
    PutRule(row.ruleId, row.newFire, if row.storedRecovery.Some? then row.newRecovery else None)
  }

  function UndoOf(row: Row): Request {
    PutRule(row.ruleId, row.oldFire, row.storedRecovery)
  }

  function RuleRequests(rows: seq<Row>): seq<Request> {
    if rows == [] then []
    else
      var n := |rows| - 1;
      RuleRequests(rows[..n]) + if Changed(rows[n]) then [ChangeOf(rows[n])] else []
  }

  /** Rules are put back in the reverse of the order they were changed in. */
  function RuleRollback(rows: seq<Row>): seq<Request> {
    if rows == [] then []
    else
      var n := |rows| - 1;
      (if Changed(rows[n]) then [UndoOf(rows[n])] else []) + RuleRollback(rows[..n])
  }

  function DeviceRequests(ids: seq<int>, interval: map<int, int>): (r: seq<Request>)
    requires forall d | d in ids :: d in interval
    ensures |r| == |ids|
  {
    if ids == [] then []
    else
      var last := ids[|ids| - 1];
      assert last in ids && forall d | d in ids[..|ids| - 1] :: d in ids;
      DeviceRequests(ids[..|ids| - 1], interval) + [PutDevice(last, interval[last])]
  }

  function Reversed<T>(s: seq<T>): (r: seq<T>)
    ensures |r| == |s|
  {
    if s == [] then [] else [s[|s| - 1]] + Reversed(s[..|s| - 1])
  }

  // ---- plan ----

  function Firsts(items: seq<(int, int)>): seq<int> {
    seq(|items|, k requires 0 <= k < |items| => items[k].0)
  }

  function RuleKey(r: Rule): int { r.id }

  function Identity(x: int): int { x }

  function FleetOf(s: Snapshot, items: seq<(int, int)>): (r: Result<Fleet, Error>)
    ensures r.Ok? ==> r.value.Sound() && r.value.requested.Keys == set x | x in items :: x.0
  {
    var tables :- Indexed(s);
    if s.rollup < 1 then Err(NotAnInteger)
    else
      var requested :- AddCandidates(items, map[], tables.0);
      Ok(Fleet(tables.0, tables.1, requested, s.rollup))
  }

  /** The report of main(), or the first complaint. */
  function Planned(s: Snapshot, items: seq<(int, int)>): Result<Report, Error> {
    var keys :- Parsed(items, {});
    var f :- FleetOf(s, items);
    var owned :- AddOwned(s.owned, {});
    var rules := SortBy(s.rules, RuleKey);
    var rows :- AddRows(rules, [], f);
    if !(owned <= RowIds(rows)) then Err(OwnedRunUnknown)
    else
      var ids := SortBy(Firsts(items), Identity);
      CandidateIds(items, ids);
      var blockers := Blockers(rules, rows, f.requested, owned, s.settings);
      if blockers != {} then Ok(Report(rows, blockers, [], []))
      else
        Ok(Report(
             rows, {},
             RuleRequests(rows) + DeviceRequests(ids, f.requested),
             DeviceRequests(Reversed(ids), f.devices) + RuleRollback(rows)))
  }

  lemma CandidateIds(items: seq<(int, int)>, ids: seq<int>)
    requires ids == SortBy(Firsts(items), Identity)
    ensures forall d :: d in ids <==> d in set x | x in items :: x.0
    ensures forall d :: d in Reversed(ids) <==> d in ids
  {
    SortedMembers(Firsts(items), Identity);
    forall d ensures d in Firsts(items) <==> d in set x | x in items :: x.0 {
      if d in Firsts(items) {
        var k :| 0 <= k < |items| && items[k].0 == d;
        assert items[k] in items;
      }
      if d in set x | x in items :: x.0 {
        var k :| 0 <= k < |items| && items[k].0 == d;
        assert Firsts(items)[k] == d;
      }
    }
    forall d ensures d in Reversed(ids) <==> d in ids {
      ReversedMembers(ids, d);
    }
  }

  lemma {:induction false} ReversedMembers<T>(s: seq<T>, x: T)
    ensures x in Reversed(s) <==> x in s
  {
    if s != [] {
      ReversedMembers(s[..|s| - 1], x);
      assert s == s[..|s| - 1] + [s[|s| - 1]];
    }
  }
}
