/** Which snapshots and options the retuning planner takes at all: what each table must satisfy, and nothing more. */
module RetuneInput {
  import opened Options
  import opened Sorting
  import opened RetunePlan
  import opened RetuneScript
  import opened RetuneSafety
  import opened RetuneMeaning

  type Pairs = seq<(int, int)>

  ghost predicate OwnIds(rows: Pairs) {
    forall j, k | 0 <= j < k < |rows| :: rows[j].0 != rows[k].0
  }

  // ---- the tables ----

  lemma {:induction false} DevicesTaken(rows: Pairs, devices: map<int, int>)
    ensures AddDevices(rows, devices).Ok? <==>
      && (forall k | 0 <= k < |rows| :: rows[k].0 >= 1 && rows[k].1 >= 5 && rows[k].0 !in devices) && OwnIds(rows)
    decreases |rows|
  {
    if rows != [] {
      var rest := rows[1..];
      DevicesTaken(rest, devices[rows[0].0 := rows[0].1]);
      assert forall k | 0 <= k < |rest| :: rest[k] == rows[k + 1];
      assert forall k | 1 <= k < |rows| :: rows[k] == rest[k - 1];
    }
  }

  lemma {:induction false} InterfacesTaken(rows: Pairs, interfaces: map<int, int>, devices: map<int, int>)
    ensures AddInterfaces(rows, interfaces, devices).Ok? <==>
      && (forall k | 0 <= k < |rows| ::
            rows[k].0 >= 1 && rows[k].1 >= 1 && rows[k].1 in devices && rows[k].0 !in interfaces)
      && OwnIds(rows)
    decreases |rows|
  {
    if rows != [] {
      var rest := rows[1..];
      InterfacesTaken(rest, interfaces[rows[0].0 := rows[0].1], devices);
      assert forall k | 0 <= k < |rest| :: rest[k] == rows[k + 1];
      assert forall k | 1 <= k < |rows| :: rows[k] == rest[k - 1];
    }
  }

  lemma {:induction false} CandidatesTaken(items: Pairs, requested: map<int, int>, devices: map<int, int>)
    ensures AddCandidates(items, requested, devices).Ok? <==>
      forall k | 0 <= k < |items| ::
        items[k].0 >= 1 && items[k].1 >= 5 && items[k].0 in devices && items[k].1 < devices[items[k].0]
    decreases |items|
  {
    if items != [] {
      var rest := items[1..];
      CandidatesTaken(rest, requested[items[0].0 := items[0].1], devices);
      assert forall k | 0 <= k < |rest| :: rest[k] == items[k + 1];
      assert forall k | 1 <= k < |items| :: items[k] == rest[k - 1];
    }
  }

  lemma {:induction false} OptionsTaken(items: Pairs, seen: set<int>)
    ensures Parsed(items, seen).Ok? <==> (forall k | 0 <= k < |items| :: items[k].0 !in seen) && OwnIds(items)
    decreases |items|
  {
    if items != [] {
      var rest := items[1..];
      OptionsTaken(rest, seen + {items[0].0});
      assert forall k | 0 <= k < |rest| :: rest[k] == items[k + 1];
      assert forall k | 1 <= k < |items| :: items[k] == rest[k - 1];
    }
  }

  lemma {:induction false} OwnedTaken(ids: seq<int>, owned: set<int>)
    ensures AddOwned(ids, owned).Ok? <==>
      (forall k | 0 <= k < |ids| :: ids[k] >= 1 && ids[k] !in owned) && forall j, k | 0 <= j < k < |ids| :: ids[j] != ids[k]
    decreases |ids|
  {
    if ids != [] {
      var rest := ids[1..];
      OwnedTaken(rest, owned + {ids[0]});
      assert forall k | 0 <= k < |rest| :: rest[k] == ids[k + 1];
      assert forall k | 1 <= k < |ids| :: ids[k] == rest[k - 1];
    }
  }

  lemma {:induction false} OwnedAre(ids: seq<int>, owned: set<int>)
    requires AddOwned(ids, owned).Ok?
    ensures AddOwned(ids, owned).value == owned + set x | x in ids
    decreases |ids|
  {
    if ids != [] {
      OwnedAre(ids[1..], owned + {ids[0]});
      assert ids == [ids[0]] + ids[1..];
    }
  }

  predicate IsListed(rows: Pairs, d: int) { exists k | 0 <= k < |rows| :: rows[k].0 == d }

  /** The device is listed with a longer interval. */
  predicate Polled(rows: Pairs, d: int, v: int) { exists k | 0 <= k < |rows| :: rows[k].0 == d && v < rows[k].1 }

  /** Positive distinct ids, no interval under five seconds, every interface on a listed device, candidates strictly faster. */
  ghost predicate TablesGood(s: Snapshot, items: Pairs) {
    && DevicesGood(s.devices) && InterfacesGood(s.interfaces, s.devices) && OptionsGood(items, s.devices) && s.rollup >= 1
  }

  ghost predicate DevicesGood(rows: Pairs) {
    (forall k | 0 <= k < |rows| :: rows[k].0 >= 1 && rows[k].1 >= 5) && OwnIds(rows)
  }

  ghost predicate InterfacesGood(rows: Pairs, devices: Pairs) {
    (forall k | 0 <= k < |rows| :: rows[k].0 >= 1 && IsListed(devices, rows[k].1)) && OwnIds(rows)
  }

  ghost predicate OptionsGood(items: Pairs, devices: Pairs) {
    (forall k | 0 <= k < |items| :: items[k].1 >= 5 && Polled(devices, items[k].0, items[k].1)) && OwnIds(items)
  }

  lemma DeviceRow(rows: Pairs, devices: map<int, int>, d: int, v: int)
    requires Holds(devices, rows) && forall k | 0 <= k < |rows| :: rows[k].0 >= 1
    ensures d in devices <==> IsListed(rows, d)
    ensures d in devices && v < devices[d] <==> Polled(rows, d, v)
    ensures d in devices ==> d >= 1
  {
    if d in devices {
      assert (d, devices[d]) in rows;
      var k :| 0 <= k < |rows| && rows[k] == (d, devices[d]);
      assert rows[k].0 == d;
    }
    forall k | 0 <= k < |rows| ensures rows[k].0 in devices && devices[rows[k].0] == rows[k].1 {
      assert rows[k] in rows;
    }
  }

  lemma InterfacesRead(rows: Pairs, listed: Pairs, devices: map<int, int>)
    requires Holds(devices, listed) && DevicesGood(listed)
    ensures AddInterfaces(rows, map[], devices).Ok? <==> InterfacesGood(rows, listed)
  {
    InterfacesTaken(rows, map[], devices);
    forall k | 0 <= k < |rows| ensures rows[k].1 >= 1 && rows[k].1 in devices <==> IsListed(listed, rows[k].1) {
      DeviceRow(listed, devices, rows[k].1, 0);
    }
  }

  lemma OptionsRead(items: Pairs, listed: Pairs, devices: map<int, int>)
    requires Holds(devices, listed) && DevicesGood(listed)
    ensures Parsed(items, {}).Ok? && AddCandidates(items, map[], devices).Ok? <==> OptionsGood(items, listed)
  {
    OptionsTaken(items, {});
    CandidatesTaken(items, map[], devices);
    forall k | 0 <= k < |items|
      ensures items[k].0 >= 1 && items[k].0 in devices && items[k].1 < devices[items[k].0]
        <==> Polled(listed, items[k].0, items[k].1)
    {
      DeviceRow(listed, devices, items[k].0, items[k].1);
    }
  }

  predicate TablesRead(s: Snapshot, items: Pairs) {
    && Parsed(items, {}).Ok? && AddDevices(s.devices, map[]).Ok? && s.rollup >= 1
    && AddInterfaces(s.interfaces, map[], AddDevices(s.devices, map[]).value).Ok?
    && AddCandidates(items, map[], AddDevices(s.devices, map[]).value).Ok?
  }

  lemma FleetParts(s: Snapshot, items: Pairs)
    ensures Parsed(items, {}).Ok? && FleetOf(s, items).Ok? <==> TablesRead(s, items)
  {
  }

  lemma DevicesRead(rows: Pairs)
    ensures AddDevices(rows, map[]).Ok? <==> DevicesGood(rows)
    ensures AddDevices(rows, map[]).Ok? ==> Holds(AddDevices(rows, map[]).value, rows)
  {
    DevicesTaken(rows, map[]);
    if AddDevices(rows, map[]).Ok? { DevicesAre(rows, map[]); }
  }

  /** Exactly good tables are read. */
  lemma TablesTaken(s: Snapshot, items: Pairs)
    ensures TablesRead(s, items) <==> TablesGood(s, items)
  {
    DevicesRead(s.devices);
    if AddDevices(s.devices, map[]).Ok? {
      var devices := AddDevices(s.devices, map[]).value;
      InterfacesRead(s.interfaces, s.devices, devices);
      OptionsRead(items, s.devices, devices);
    }
  }

  // ---- the rules ----

  lemma {:induction false} DistinctSet(s: seq<int>)
    ensures |set x | x in s| <= |s|
    ensures NoDuplicates(s) <==> forall j, k | 0 <= j < k < |s| :: s[j] != s[k]
  {
    if s != [] {
      var front, last := s[..|s| - 1], s[|s| - 1];
      DistinctSet(front);
      assert s == front + [last];
      assert (set x | x in s) == (set x | x in front) + {last};
    }
  }

  lemma {:induction false} InterfacesKnown(id: int, members: seq<int>, interfaces: map<int, int>, found: seq<int>)
    ensures MemberDevices(id, members, interfaces, found).Ok? <==> forall i | i in members :: i in interfaces
    decreases |members|
  {
    if members != [] {
      assert members == [members[0]] + members[1..];
      InterfacesKnown(id, members[1..], interfaces, found + [if members[0] in interfaces then interfaces[members[0]] else 0]);
    }
  }

  /** The rule is evaluated somewhere, on known interfaces only, none named twice. */
  ghost predicate Placed(rule: Rule, f: Fleet) {
    && (rule.aggregation == "single" || rule.aggregation == "sum")
    && (exists i :: Measures(rule, i)) && (forall i | Measures(rule, i) :: i in f.interfaces)
    && forall j, k | 0 <= j < k < |rule.members| :: rule.members[j] != rule.members[k]
  }

  lemma PlacedIs(rule: Rule, f: Fleet)
    requires f.Sound() && 0 !in f.interfaces
    ensures Placed(rule, f) <==> Accepted(rule, f)
  {
    DistinctSet(rule.members);
    if Members(rule).Ok? {
      var members := Members(rule).value;
      InterfacesKnown(rule.id, members, f.interfaces, []);
      forall i ensures i in members <==> Measures(rule, i) { MembersMeasured(rule, i); }
      assert members[0] in members;
    } else if Placed(rule, f) {
      var i :| Measures(rule, i);
      DistinctSet([i]);
    }
  }

  /** No retuned count needs more than the largest u32. */
  ghost predicate CountsFit(rule: Rule, f: Fleet) {
    forall c, c' | IsCadence(rule, f, f.devices, c) && IsCadence(rule, f, f.Target(), c') ::
      && rule.fire * c <= 0xFFFF_FFFF * c'
      && (rule.mode != "manual" ==> (if rule.recovery.Some? then rule.recovery.value else rule.fire) * c <= 0xFFFF_FFFF * c')
  }

  ghost predicate RuleGood(rule: Rule, f: Fleet) {
    && rule.id >= 1 && rule.metric != "" && rule.duration >= 0 && (rule.window.Some? ==> rule.window.value >= 0)
    && Placed(rule, f)
    && rule.fire >= 0 && rule.mode in {"auto", "threshold", "manual"} && (rule.recovery.Some? ==> rule.recovery.value >= 0)
    && (!FlowMetric(rule.metric) && Touched(rule, f) ==> CountsFit(rule, f))
  }

  lemma FitIs(rule: Rule, f: Fleet)
    requires f.Sound() && Accepted(rule, f) && Used(rule, f) != [] && rule.fire >= 0
    requires rule.recovery.Some? ==> rule.recovery.value >= 0
    ensures
      var floor := Floor(rule.aggregation, f.rollup);
      var c, c' := Slowest(Used(rule, f), f.devices, floor), Slowest(Used(rule, f), f.Target(), floor);
      && c' > 0
      && (CountsFit(rule, f) <==>
            Scaled(rule.fire, c, c').Ok?
            && (rule.mode != "manual" ==> Scaled(if rule.recovery.Some? then rule.recovery.value else rule.fire, c, c').Ok?))
  {
    var used, floor := Used(rule, f), Floor(rule.aggregation, f.rollup);
    var c, c' := Slowest(used, f.devices, floor), Slowest(used, f.Target(), floor);
    SlowestPositive(used, f.devices, floor);
    SlowestPositive(used, f.Target(), floor);
    CadenceIs(rule, f, f.devices);
    CadenceIs(rule, f, f.Target());
    OverflowIff(rule.fire, c, c');
    if rule.recovery.Some? { OverflowIff(rule.recovery.value, c, c'); }
    forall o, o' | IsCadence(rule, f, f.devices, o) && IsCadence(rule, f, f.Target(), o') ensures o == c && o' == c' {
      OneCadence(rule, f, f.devices, o, c);
      OneCadence(rule, f, f.Target(), o', c');
    }
  }

  lemma RetunedIff(rule: Rule, f: Fleet)
    requires f.Sound() && Accepted(rule, f) && Used(rule, f) != []
    ensures Retuned(rule, Used(rule, f), f).Ok? <==>
      && rule.fire >= 0 && rule.mode in {"auto", "threshold", "manual"} && (rule.recovery.Some? ==> rule.recovery.value >= 0)
      && (!FlowMetric(rule.metric) && Touched(rule, f) ==> CountsFit(rule, f))
  {
    FlowIs(rule.metric);
    TouchedIs(rule, f);
    if rule.fire >= 0 && (rule.recovery.Some? ==> rule.recovery.value >= 0) {
      FitIs(rule, f);
    }
  }

  lemma RowTaken(rule: Rule, seen: set<int>, f: Fleet)
    requires f.Sound() && 0 !in f.interfaces
    ensures RowOf(rule, seen, f).Ok? <==> RuleGood(rule, f) && rule.id !in seen
  {
    PlacedIs(rule, f);
    if Accepted(rule, f) {
      UsedAre(rule, f);
      RetunedIff(rule, f);
    }
  }

  // ---- the whole plan ----

  function IdsOf(rules: seq<Rule>): set<int> { set r | r in rules :: r.id }

  /** A further rule is good, is none of those seen, and no rule after it is the same. */
  lemma RulesSplit(rules: seq<Rule>, seen: set<int>, f: Fleet)
    requires rules != []
    ensures AllGood(rules, seen, f) <==>
      && RuleGood(rules[0], f) && rules[0].id !in seen && AllGood(rules[1..], seen + {rules[0].id}, f)
    ensures IdsOf(rules) == {rules[0].id} + IdsOf(rules[1..])
  {
    var rest := rules[1..];
    assert rules == [rules[0]] + rest;
    assert forall k | 0 <= k < |rest| :: rest[k] == rules[k + 1];
    assert forall k | 1 <= k < |rules| :: rules[k] == rest[k - 1];
  }

  ghost predicate AllGood(rules: seq<Rule>, seen: set<int>, f: Fleet) {
    && (forall k | 0 <= k < |rules| :: RuleGood(rules[k], f) && rules[k].id !in seen)
    && forall j, k | 0 <= j < k < |rules| :: rules[j].id != rules[k].id
  }

  lemma RowAdded(rule: Rule, rows: seq<Row>, f: Fleet)
    requires f.Sound() && RowOf(rule, RowIds(rows), f).Ok?
    ensures RowIds(rows + [RowOf(rule, RowIds(rows), f).value]) == RowIds(rows) + {rule.id}
  {
    RowIdKept(rule, RowIds(rows), f);
  }

  lemma {:induction false} RowsTaken(rules: seq<Rule>, rows: seq<Row>, f: Fleet)
    requires f.Sound() && 0 !in f.interfaces
    ensures AddRows(rules, rows, f).Ok? <==> AllGood(rules, RowIds(rows), f)
    ensures AddRows(rules, rows, f).Ok? ==> RowIds(AddRows(rules, rows, f).value) == RowIds(rows) + IdsOf(rules)
    decreases |rules|
  {
    if rules != [] {
      RulesSplit(rules, RowIds(rows), f);
      RowTaken(rules[0], RowIds(rows), f);
      if RowOf(rules[0], RowIds(rows), f).Ok? {
        RowAdded(rules[0], rows, f);
        RowsTaken(rules[1..], rows + [RowOf(rules[0], RowIds(rows), f).value], f);
      }
    }
  }

  lemma SortedIds(rules: seq<Rule>)
    ensures (forall j, k | 0 <= j < k < |rules| :: rules[j].id != rules[k].id)
       <==> forall j, k | 0 <= j < k < |SortBy(rules, RuleKey)| :: SortBy(rules, RuleKey)[j].id != SortBy(rules, RuleKey)[k].id
  {
    var sorted := SortBy(rules, RuleKey);
    if j, k :| 0 <= j < k < |sorted| && sorted[j].id == sorted[k].id {
      var i, l := StableOrder(rules, RuleKey, j, k);
    }
    if j, k :| 0 <= j < k < |rules| && rules[j].id == rules[k].id {
      SortStable(rules, RuleKey, rules[j].id);
      var i, l := HavingKeepsOrder(rules, RuleKey, rules[j].id, j, k);
      var j', k' := HavingOrderFrom(sorted, RuleKey, rules[j].id, i, l);
    }
  }

  /** The rules are good, none twice, and those with unfinished work are among them. */
  ghost predicate RulesGood(s: Snapshot, f: Fleet) {
    && (forall rule | rule in s.rules :: RuleGood(rule, f))
    && (forall j, k | 0 <= j < k < |s.rules| :: s.rules[j].id != s.rules[k].id)
    && (forall k | 0 <= k < |s.owned| :: s.owned[k] >= 1 && exists rule | rule in s.rules :: rule.id == s.owned[k])
    && forall j, k | 0 <= j < k < |s.owned| :: s.owned[j] != s.owned[k]
  }

  lemma SortedTaken(rules: seq<Rule>, f: Fleet)
    requires f.Sound() && 0 !in f.interfaces
    ensures AddRows(SortBy(rules, RuleKey), [], f).Ok? <==>
      && (forall rule | rule in rules :: RuleGood(rule, f))
      && forall j, k | 0 <= j < k < |rules| :: rules[j].id != rules[k].id
    ensures AddRows(SortBy(rules, RuleKey), [], f).Ok? ==>
      RowIds(AddRows(SortBy(rules, RuleKey), [], f).value) == IdsOf(rules)
  {
    var sorted := SortBy(rules, RuleKey);
    RowsTaken(sorted, [], f);
    SortedIds(rules);
    SortedMembers(rules, RuleKey);
    assert forall k | 0 <= k < |sorted| :: sorted[k] in sorted;
  }

  predicate RulesRead(s: Snapshot, f: Fleet)
    requires f.Sound()
  {
    && AddOwned(s.owned, {}).Ok? && AddRows(SortBy(s.rules, RuleKey), [], f).Ok?
    && AddOwned(s.owned, {}).value <= RowIds(AddRows(SortBy(s.rules, RuleKey), [], f).value)
  }

  lemma PlanParts(s: Snapshot, items: Pairs)
    ensures Planned(s, items).Ok? <==>
      Parsed(items, {}).Ok? && FleetOf(s, items).Ok? && RulesRead(s, FleetOf(s, items).value)
  {
  }

  lemma OwnedKnown(s: Snapshot)
    requires AddOwned(s.owned, {}).Ok?
    ensures AddOwned(s.owned, {}).value <= IdsOf(s.rules) <==>
      forall k | 0 <= k < |s.owned| :: exists rule | rule in s.rules :: rule.id == s.owned[k]
  {
    OwnedAre(s.owned, {});
    assert forall k | 0 <= k < |s.owned| :: s.owned[k] in AddOwned(s.owned, {}).value;
  }

  lemma RulesTaken(s: Snapshot, f: Fleet)
    requires f.Sound() && 0 !in f.interfaces
    ensures RulesRead(s, f) <==> RulesGood(s, f)
  {
    OwnedTaken(s.owned, {});
    SortedTaken(s.rules, f);
    if AddOwned(s.owned, {}).Ok? { OwnedKnown(s); }
  }

  lemma NoInterfaceZero(s: Snapshot, items: Pairs, f: Fleet)
    requires TablesGood(s, items) && Parsed(items, {}).Ok? && FleetOf(s, items) == Ok(f)
    ensures 0 !in f.interfaces
  {
    FleetIs(s, items, f);
  }

  /** A report is made exactly of good tables and good rules; anything else is refused. */
  lemma PlannedIff(s: Snapshot, items: Pairs)
    ensures Planned(s, items).Ok? <==> TablesGood(s, items) && FleetOf(s, items).Ok? && RulesGood(s, FleetOf(s, items).value)
    ensures TablesGood(s, items) ==> FleetOf(s, items).Ok?
  {
    PlanParts(s, items);
    FleetParts(s, items);
    TablesTaken(s, items);
    if TablesGood(s, items) {
      var f := FleetOf(s, items).value;
      NoInterfaceZero(s, items, f);
      RulesTaken(s, f);
    }
  }
}
