/** The loops of scripts/retune-sample-counts.py, each against the function it computes. */
module RetuneScript {
  import opened Options
  import opened Sorting
  import opened RetunePlan

  method ParseCandidates(items: seq<(int, int)>) returns (r: Result<set<int>, Error>)
    ensures r == Parsed(items, {})
  {
    var seen: set<int> := {};
    for k := 0 to |items|
      invariant Parsed(items[k..], seen) == Parsed(items, {})
    {
      assert items[k..][1..] == items[k + 1..];
      if items[k].0 in seen { return Err(DuplicateCandidate(items[k].0)); }
      seen := seen + {items[k].0};
    }
    r := Ok(seen);
  }

  method Index(s: Snapshot) returns (r: Result<(map<int, int>, map<int, int>), Error>)
    ensures r == Indexed(s)
  {
    var devices: map<int, int> := map[];
    for k := 0 to |s.devices|
      invariant AddDevices(s.devices[k..], devices) == AddDevices(s.devices, map[])
    {
      assert s.devices[k..][1..] == s.devices[k + 1..];
      var (id, interval) := s.devices[k];
      if id < 1 { return Err(NotAnInteger); }
      if id in devices { return Err(DuplicateDevice(id)); }
      if interval < SHORTEST_POLL { return Err(NotAnInteger); }
      devices := devices[id := interval];
    }
    var interfaces: map<int, int> := map[];
    for k := 0 to |s.interfaces|
      invariant AddInterfaces(s.interfaces[k..], interfaces, devices) == AddInterfaces(s.interfaces, map[], devices)
    {
      assert s.interfaces[k..][1..] == s.interfaces[k + 1..];
      var (id, device) := s.interfaces[k];
      if id < 1 || device < 1 { return Err(NotAnInteger); }
      if id in interfaces || device !in devices { return Err(InvalidInterface(id)); }
      interfaces := interfaces[id := device];
    }
    r := Ok((devices, interfaces));
  }

  method CollectRequested(items: seq<(int, int)>, devices: map<int, int>) returns (r: Result<map<int, int>, Error>)
    ensures r == AddCandidates(items, map[], devices)
  {
    var requested: map<int, int> := map[];
    for k := 0 to |items|
      invariant AddCandidates(items[k..], requested, devices) == AddCandidates(items, map[], devices)
    {
      assert items[k..][1..] == items[k + 1..];
      var (id, interval) := items[k];
      if id < 1 || interval < SHORTEST_POLL { return Err(NotAnInteger); }
      if id !in devices { return Err(CandidateMissing(id)); }
      if interval >= devices[id] { return Err(CandidateNotFaster(id)); }
      requested := requested[id := interval];
    }
    r := Ok(requested);
  }

  method CollectOwned(ids: seq<int>) returns (r: Result<set<int>, Error>)
    ensures r == AddOwned(ids, {})
  {
    var owned: set<int> := {};
    for k := 0 to |ids|
      invariant AddOwned(ids[k..], owned) == AddOwned(ids, {})
    {
      assert ids[k..][1..] == ids[k + 1..];
      if ids[k] < 1 { return Err(NotAnInteger); }
      if ids[k] in owned { return Err(DuplicateOwnedRun(ids[k])); }
      owned := owned + {ids[k]};
    }
    r := Ok(owned);
  }

  method ResolveMembers(id: int, members: seq<int>, interfaces: map<int, int>) returns (r: Result<seq<int>, Error>)
    ensures r == MemberDevices(id, members, interfaces, [])
  {
    var found: seq<int> := [];
    for k := 0 to |members|
      invariant MemberDevices(id, members[k..], interfaces, found) == MemberDevices(id, members, interfaces, [])
    {
      assert members[k..][1..] == members[k + 1..];
      if members[k] !in interfaces { return Err(MemberMissing(id, members[k])); }
      found := found + [interfaces[members[k]]];
    }
    r := Ok(found);
  }

  method ComputeRow(rule: Rule, seen: set<int>, f: Fleet) returns (r: Result<Row, Error>)
    requires f.Sound()
    ensures r == RowOf(rule, seen, f)
  {
    if rule.id < 1 { return Err(NotAnInteger); }
    if rule.id in seen { return Err(DuplicateRule(rule.id)); }
    if rule.metric == "" { return Err(MetricMissing(rule.id)); }
    if !ValidFields(rule) { return Err(NotAnInteger); }
    var members :- Members(rule);
    var used :- ResolveMembers(rule.id, members, f.interfaces);
    forall d | d in used ensures d in f.devices {
      var i :| i in f.interfaces && f.interfaces[i] == d;
    }
    r := Retuned(rule, used, f);
  }

  /** The loop over the rules: one row each, a request where the counts change, and everything that blocks. */
  method RetuneRules(rules: seq<Rule>, f: Fleet, owned: set<int>, settings: map<string, string>)
    returns (r: Result<seq<Row>, Error>, requests: seq<Request>, blockers: set<Blocker>)
    requires f.Sound()
    ensures r == AddRows(rules, [], f)
    ensures r.Ok? ==> requests == RuleRequests(r.value)
    ensures r.Ok? ==> blockers == Blockers(rules, r.value, f.requested, owned, settings)
  {
    var rows: seq<Row> := [];
    var seen: set<int> := {};
    requests, blockers := [], SettingsBlockers(settings);
    for k := 0 to |rules|
      invariant |rows| == k && seen == RowIds(rows)
      invariant AddRows(rules[k..], rows, f) == AddRows(rules, [], f)
      invariant requests == RuleRequests(rows)
      invariant blockers == Blockers(rules[..k], rows, f.requested, owned, settings)
    {
      assert rules[k..][1..] == rules[k + 1..];
      var computed := ComputeRow(rules[k], seen, f);
      if computed.Err? { return Err(computed.error), requests, blockers; }
      var row := computed.value;
      RowIdKept(rules[k], seen, f);
      NextRow(rules, k, rows, row, f.requested, owned, settings);
      blockers := blockers + if IsAffected(row.memberDevices, f.requested) then RuleBlockers(rules[k], owned) else {};
      requests := requests + if Changed(row) then [ChangeOf(row)] else [];
      rows, seen := rows + [row], seen + {rules[k].id};
    }
    assert rules[..|rules|] == rules;
    r := Ok(rows);
  }

  lemma NextRow(rules: seq<Rule>, k: nat, rows: seq<Row>, row: Row, requested: map<int, int>, owned: set<int>, settings: map<string, string>)
    requires k < |rules| && |rows| == k
    ensures RowIds(rows + [row]) == RowIds(rows) + {row.ruleId}
    ensures RuleRequests(rows + [row]) == RuleRequests(rows) + if Changed(row) then [ChangeOf(row)] else []
    ensures Blockers(rules[..k + 1], rows + [row], requested, owned, settings)
         == Blockers(rules[..k], rows, requested, owned, settings)
            + if IsAffected(row.memberDevices, requested) then RuleBlockers(rules[k], owned) else {}
  {
    assert (rows + [row])[..k] == rows && rules[..k + 1][..k] == rules[..k];
  }

  lemma RowIdKept(rule: Rule, seen: set<int>, f: Fleet)
    requires f.Sound() && RowOf(rule, seen, f).Ok?
    ensures RowOf(rule, seen, f).value.ruleId == rule.id && rule.id !in seen
  {
  }

  method DevicePuts(ids: seq<int>, interval: map<int, int>) returns (requests: seq<Request>)
    requires forall d | d in ids :: d in interval
    ensures requests == DeviceRequests(ids, interval)
  {
    requests := [];
    for k := 0 to |ids|
      invariant forall d | d in ids[..k] :: d in ids && d in interval
      invariant requests == DeviceRequests(ids[..k], interval)
    {
      var id := ids[k];
      assert id in ids;
      assert ids[..k + 1][..k] == ids[..k] && ids[..k + 1][k] == id;
      requests := requests + [PutDevice(id, interval[id])];
    }
    assert ids[..|ids|] == ids;
  }

  /** next(x for x in table if x["rule_id"] == id) */
  method FindRow(table: seq<Row>, id: int) returns (row: Row)
    requires exists k | 0 <= k < |table| :: table[k].ruleId == id
    ensures row in table && row.ruleId == id
  {
    var k := 0;
    while table[k].ruleId != id
      invariant k < |table| && forall j | 0 <= j < k :: table[j].ruleId != id
      decreases |table| - k
    {
      k := k + 1;
    }
    row := table[k];
  }

  ghost predicate OwnRows(rows: seq<Row>) {
    forall j, k | 0 <= j < k < |rows| :: rows[j].ruleId != rows[k].ruleId
  }

  /** The last request made for the first n rows, and the row it was made for. */
  lemma {:induction false} LastRequest(table: seq<Row>, n: nat) returns (j: nat)
    requires n <= |table| && RuleRequests(table[..n]) != []
    ensures j < n && Changed(table[j])
    ensures RuleRequests(table[..n]) == RuleRequests(table[..j]) + [ChangeOf(table[j])]
    ensures RuleRollback(table[..n]) == [UndoOf(table[j])] + RuleRollback(table[..j])
  {
    assert table[..n][..n - 1] == table[..n - 1];
    if Changed(table[n - 1]) {
      j := n - 1;
    } else {
      j := LastRequest(table, n - 1);
    }
  }

  /** for request in reversed(rule_requests): look the rule's row up again and restore what it had. */
  method RollBackRules(requests: seq<Request>, table: seq<Row>) returns (undo: seq<Request>)
    requires OwnRows(table) && requests == RuleRequests(table)
    ensures undo == RuleRollback(table)
  {
    undo := [];
    ghost var n := |table|;
    assert table[..n] == table && requests[..|requests|] == requests;
    for k := |requests| downto 0
      invariant n <= |table| && requests[..k] == RuleRequests(table[..n])
      invariant undo + RuleRollback(table[..n]) == RuleRollback(table)
    {
      assert requests[..k + 1] == requests[..k] + [requests[k]];
      ghost var j := LastRequest(table, n);
      assert requests[k] == ChangeOf(table[j]);
      var row := FindRow(table, requests[k].id);
      assert row == table[j];
      undo := undo + [UndoOf(row)];
      n := j;
    }
    NoRequests(table, n);
  }

  lemma {:induction false} NoRequests(table: seq<Row>, n: nat)
    requires n <= |table| && RuleRequests(table[..n]) == []
    ensures RuleRollback(table[..n]) == []
  {
    if n > 0 {
      assert table[..n][..n - 1] == table[..n - 1];
      NoRequests(table, n - 1);
    }
  }

  method Backwards(ids: seq<int>) returns (r: seq<int>)
    ensures r == Reversed(ids)
  {
    r := [];
    assert ids[..|ids|] == ids;
    for k := |ids| downto 0
      invariant r + Reversed(ids[..k]) == Reversed(ids)
    {
      assert ids[..k + 1][..k] == ids[..k];
      r := r + [ids[k]];
    }
  }

  /** main(): the options, then the plan. */
  method Plan(s: Snapshot, items: seq<(int, int)>) returns (r: Result<Report, Error>)
    ensures r == Planned(s, items)
  {
    var keys :- ParseCandidates(items);
    var tables :- Index(s);
    if s.rollup < 1 { return Err(NotAnInteger); }
    var requested :- CollectRequested(items, tables.0);
    var f := Fleet(tables.0, tables.1, requested, s.rollup);
    var owned :- CollectOwned(s.owned);
    var rules := SortBy(s.rules, RuleKey);
    var table, ruleRequests, blockers := RetuneRules(rules, f, owned, s.settings);
    if table.Err? { return Err(table.error); }
    if !(owned <= RowIds(table.value)) { return Err(OwnedRunUnknown); }
    var ids := SortBy(Firsts(items), Identity);
    CandidateIds(items, ids);
    var deviceRequests := DevicePuts(ids, requested);
    OwnRowsOf(rules, [], f);
    var ruleUndo := RollBackRules(ruleRequests, table.value);
    var back := Backwards(ids);
    var deviceUndo := DevicePuts(back, f.devices);
    r := Ok(Report(
              table.value, blockers,
              if blockers != {} then [] else ruleRequests + deviceRequests,
              if blockers != {} then [] else deviceUndo + ruleUndo));
  }

  lemma {:induction false} OwnRowsOf(rules: seq<Rule>, rows: seq<Row>, f: Fleet)
    requires f.Sound() && OwnRows(rows) && AddRows(rules, rows, f).Ok?
    ensures OwnRows(AddRows(rules, rows, f).value)
    decreases |rules|
  {
    if rules != [] {
      var row := RowOf(rules[0], RowIds(rows), f).value;
      RowIdKept(rules[0], RowIds(rows), f);
      forall j | 0 <= j < |rows| ensures rows[j].ruleId != row.ruleId {
        assert rows[j] in rows;
      }
      OwnRowsOf(rules[1..], rows + [row], f);
    }
  }
}
