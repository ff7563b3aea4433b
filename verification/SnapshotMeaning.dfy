/** Which pairs of captures a release may show at all, said of their rows, field names and states. */
module SnapshotMeaning {
  import opened Options
  import opened SnapshotDiff

  const NAMES: set<string> := {
    "reroute_bundles", "execution_plans", "reroutes", "action_previews", "reroute_bundle_actions", "locks",
    "device_change_windows", "device_change_window_sources", "recovery_attempt_sources", "alert_deliveries",
    "alert_delivery_intents"
  }

  /** Sections whose rows may come and go. */
  const REPAIRED_ROWS: set<string> := {
    "device_change_windows", "device_change_window_sources", "recovery_attempt_sources", "alert_delivery_intents"
  }

  /** Evidence that may never change. */
  const EVIDENCE: map<string, set<string>> := map[
    "execution_plans" :=
      {"snapshot_json", "plan_hash", "consumed_at", "bundle_id", "user_id", "scope", "scope_id", "created_at"},
    "action_previews" := {"user_id", "scope", "scope_id", "plan_hash", "used_at", "created_at"},
    "reroutes" := {"prior_state_json", "after_state_json", "planned_steps_json", "rollback_of_reroute_id"},
    "reroute_bundle_actions" := {"rollback_snapshot_json", "prepared_action_json", "original_reroute_id", "reroute_id"},
    "alert_delivery_intents" :=
      {"alert_id", "channel", "target_key", "recipient_id", "endpoint_id", "target_address", "target_encrypted", "created_at"}
  ]

  // ---- captures that can be compared ----

  /** The field holds one of these strings. */
  predicate Says(row: Row, key: string, texts: set<string>) {
    key in row && row[key].Scalar? && row[key].kind == STRING && row[key].text in texts
  }

  /** Nothing of the reroute tables is executing or being recovered. */
  predicate Resting(s: Snapshot) {
    && (forall name | name in NAMES :: name in s)
    && (forall r | r in s["reroute_bundles"] :: !Recovering(r)) && forall r | r in s["reroutes"] :: !Executing(r)
  }

  function Fields(section: string): set<string> {
    match section
    case "action_previews" => {"token_hash"}
    case "device_change_windows" => {"device_id"}
    case "device_change_window_sources" => {"device_id", "source_bundle_id"}
    case "recovery_attempt_sources" => {"recovery_bundle_id", "source_bundle_id"}
    case _ => {"id"}
  }

  function IdText(section: string, row: Row): string {
    match section
    case "action_previews" => Str(Get(row, "token_hash"))
    case "device_change_windows" => Str(Get(row, "device_id"))
    case "device_change_window_sources" => Str(Get(row, "device_id")) + ":" + Str(Get(row, "source_bundle_id"))
    case "recovery_attempt_sources" => Str(Get(row, "recovery_bundle_id")) + ":" + Str(Get(row, "source_bundle_id"))
    case _ => Str(Get(row, "id"))
  }

  ghost predicate KeyedIn(s: Snapshot, section: string)
    requires section in s
  {
    && (forall k | 0 <= k < |s[section]| :: Fields(section) <= s[section][k].Keys)
    && forall j, k | 0 <= j < k < |s[section]| :: IdText(section, s[section][j]) != IdText(section, s[section][k])
  }

  /** Every row carries the fields that identify it, and no two rows the same identity. */
  ghost predicate WellKeyed(s: Snapshot) {
    forall section | section in NAMES && section in s :: KeyedIn(s, section)
  }

  lemma SectionsAre(section: string)
    ensures section in SECTIONS <==> section in NAMES
  {
    assert SECTIONS[0] == "action_previews" && SECTIONS[1] == "alert_delivery_intents";
    assert SECTIONS[2] == "device_change_window_sources" && SECTIONS[3] == "device_change_windows";
    assert SECTIONS[4] == "execution_plans" && SECTIONS[5] == "locks" && SECTIONS[6] == "recovery_attempt_sources";
    assert SECTIONS[7] == "reroute_bundle_actions" && SECTIONS[8] == "reroute_bundles";
    assert SECTIONS[9] == "reroutes" && SECTIONS[10] == "alert_deliveries";
  }

  predicate Executing(row: Row) { Says(row, "state", {"planned", "pending", "running", "verifying"}) }

  predicate Recovering(row: Row) {
    || Says(row, "state", {"planned", "pending", "running", "verifying", "compensating"})
    || Says(row, "lifecycle_state", {"recovery_claimed", "recovery_running"})
  }

  lemma StatesAre(row: Row)
    ensures Active(row) <==> Executing(row)
    ensures ActiveBundle(row) <==> Recovering(row)
  {
  }

  lemma AllStates(rows: seq<Row>)
    ensures (forall r | r in rows :: !Active(r)) <==> forall r | r in rows :: !Executing(r)
    ensures (forall r | r in rows :: !ActiveBundle(r)) <==> forall r | r in rows :: !Recovering(r)
  {
    forall r | r in rows ensures (Active(r) <==> Executing(r)) && (ActiveBundle(r) <==> Recovering(r)) { StatesAre(r); }
  }

  lemma StoppedIs(s: Snapshot)
    ensures Stopped(s) <==> Resting(s)
  {
    forall section ensures section in SECTIONS <==> section in NAMES { SectionsAre(section); }
    if "reroute_bundles" in s && "reroutes" in s {
      AllStates(s["reroute_bundles"]);
      AllStates(s["reroutes"]);
    }
  }

  lemma IdentityIs(section: string, row: Row)
    ensures Identity(row, SectionKeys(section)) == IdText(section, row)
    ensures HasIdentity(row, SectionKeys(section)) <==> Fields(section) <= row.Keys
  {
    var keys := SectionKeys(section);
    if |keys| == 2 {
      assert keys[..1] == [keys[0]];
      assert Identity(row, keys[..1]) == Str(Get(row, keys[0]));
    }
  }

  lemma {:induction false} IndexedIff(rows: seq<Row>, keys: seq<string>, index: map<string, Row>)
    ensures AddRows(rows, keys, index).Some? <==>
      && (forall k | 0 <= k < |rows| :: HasIdentity(rows[k], keys) && Identity(rows[k], keys) !in index)
      && forall j, k | 0 <= j < k < |rows| :: Identity(rows[j], keys) != Identity(rows[k], keys)
    decreases |rows|
  {
    if rows != [] {
      var rest, id := rows[1..], Identity(rows[0], keys);
      var more := index[id := rows[0]];
      IndexedIff(rest, keys, more);
      assert forall k | 1 <= k < |rows| :: rows[k] == rest[k - 1];
      assert forall k | 0 <= k < |rest| :: rest[k] == rows[k + 1];
    }
  }

  lemma ReadableIs(s: Snapshot, section: string)
    requires section in s
    ensures Indexed(s, section).Some? <==> KeyedIn(s, section)
  {
    IndexedIff(s[section], SectionKeys(section), map[]);
    forall k | 0 <= k < |s[section]| {
      IdentityIs(section, s[section][k]);
    }
  }

  lemma ReadableAll(ss: seq<string>, names: set<string>, before: Snapshot, now: Snapshot)
    requires forall section :: section in ss <==> section in names
    requires forall section | section in names :: section in before && section in now
    ensures Readable(ss, before, now) <==> forall section | section in names :: KeyedIn(before, section) && KeyedIn(now, section)
  {
    forall section | section in names
      ensures Indexed(before, section).Some? <==> KeyedIn(before, section)
      ensures Indexed(now, section).Some? <==> KeyedIn(now, section)
    {
      ReadableIs(before, section);
      ReadableIs(now, section);
    }
    if Readable(ss, before, now) {
      forall section | section in names ensures KeyedIn(before, section) && KeyedIn(now, section) {
        var k :| 0 <= k < |ss| && ss[k] == section;
      }
    }
  }

  lemma ComparableIs(before: Snapshot, now: Snapshot)
    ensures Comparable(before, now) <==> Resting(before) && Resting(now) && WellKeyed(before) && WellKeyed(now)
  {
    StoppedIs(before);
    StoppedIs(now);
    forall section ensures section in SECTIONS <==> section in NAMES { SectionsAre(section); }
    if Resting(before) && Resting(now) {
      ReadableAll(SECTIONS, NAMES, before, now);
    }
  }

  // ---- differences that some prediction can allow ----

  predicate MayChange(section: string, key: string) {
    && (section in EVIDENCE ==> key !in EVIDENCE[section])
    && (section == "alert_deliveries" ==> key == "delivery_intent_id" || key == "error")
  }

  /** Some row of the list has this identity. */
  ghost predicate Has(section: string, rows: seq<Row>, id: string) {
    exists k | 0 <= k < |rows| :: IdText(section, rows[k]) == id
  }

  /** A row came or went only where that can be a repair. */
  ghost predicate RowsShowable(section: string, was: seq<Row>, next: seq<Row>) {
    forall id | Has(section, was, id) != Has(section, next, id) :: section in REPAIRED_ROWS && '.' !in id
  }

  /** A field changed only where it is not evidence. */
  ghost predicate FieldsShowable(section: string, was: seq<Row>, next: seq<Row>) {
    forall a, b | a in was && b in next && IdText(section, a) == IdText(section, b) ::
      forall key | key in a || key in b :: Get(a, key) != Get(b, key) ==> MayChange(section, key) && '.' !in IdText(section, a)
  }

  lemma IndexIs(s: Snapshot, section: string)
    requires Indexed(s, section).Some?
    ensures
      var all := Indexed(s, section).value;
      && section in s
      && (forall row | row in s[section] :: IdText(section, row) in all && all[IdText(section, row)] == row)
      && (forall id | id in all :: all[id] in s[section] && IdText(section, all[id]) == id)
      && forall id :: id in all <==> Has(section, s[section], id)
  {
    IndexLosesNothing(s[section], SectionKeys(section), map[]);
    var all := Indexed(s, section).value;
    forall row ensures Identity(row, SectionKeys(section)) == IdText(section, row) { IdentityIs(section, row); }
    forall id ensures id in all <==> Has(section, s[section], id) {
      if Has(section, s[section], id) {
        var k :| 0 <= k < |s[section]| && IdText(section, s[section][k]) == id;
        assert s[section][k] in s[section];
      }
      if id in all {
        var k :| 0 <= k < |s[section]| && s[section][k] == all[id];
        assert IdText(section, s[section][k]) == id;
      }
    }
  }

  lemma KindsAre(section: string, key: string)
    requires section in NAMES
    ensures Repairable(section, key) <==> MayChange(section, key)
    ensures Internal(section) <==> section in REPAIRED_ROWS
  {
  }

  /** No difference of the section is of a kind, or of a row, that no prediction can name. */
  ghost predicate PartAllowed(section: string, before: Snapshot, now: Snapshot)
    requires Indexed(before, section).Some? && Indexed(now, section).Some?
  {
    PartPermitted(section, before, now) && forall m | m in PartDiffs(section, before, now) :: NoDot(m.rid)
  }

  lemma RowsAre(section: string, before: Snapshot, now: Snapshot)
    requires section in NAMES && Indexed(before, section).Some? && Indexed(now, section).Some?
    ensures
      var a, b := Indexed(before, section).value, Indexed(now, section).value;
      && section in before && section in now
      && (RowsShowable(section, before[section], now[section]) <==>
            forall m | m in RowDiffs(section, a, b) :: Internal(section) && NoDot(m.rid))
  {
    IndexIs(before, section);
    IndexIs(now, section);
    KindsAre(section, "");
    var a, b := Indexed(before, section).value, Indexed(now, section).value;
    forall id ensures Marker(section, id, ROW) in RowDiffs(section, a, b)
      <==> Has(section, before[section], id) != Has(section, now[section], id)
    {
    }
  }

  lemma FieldMarkers(section: string, a: map<string, Row>, b: map<string, Row>, m: Marker)
    ensures m in FieldDiffs(section, a, b, a.Keys) <==>
      && m.section == section && m.rid in a && m.rid in b
      && (m.key in a[m.rid] || m.key in b[m.rid]) && Get(a[m.rid], m.key) != Get(b[m.rid], m.key)
  {
    if m.section == section && m.rid in a && m.rid in b && (m.key in a[m.rid] || m.key in b[m.rid])
      && Get(a[m.rid], m.key) != Get(b[m.rid], m.key)
    {
      assert m == Marker(section, m.rid, m.key) && m.key in a[m.rid].Keys + b[m.rid].Keys;
    }
  }

  ghost predicate FieldsAllowed(section: string, a: map<string, Row>, b: map<string, Row>) {
    forall m | m in FieldDiffs(section, a, b, a.Keys) :: Repairable(section, m.key) && NoDot(m.rid)
  }

  lemma FieldsAre(section: string, before: Snapshot, now: Snapshot)
    requires section in NAMES && Indexed(before, section).Some? && Indexed(now, section).Some?
    ensures section in before && section in now
    ensures FieldsShowable(section, before[section], now[section]) <==>
              FieldsAllowed(section, Indexed(before, section).value, Indexed(now, section).value)
  {
    var a, b := Indexed(before, section).value, Indexed(now, section).value;
    IndexIs(before, section);
    IndexIs(now, section);
    if FieldsAllowed(section, a, b) {
      forall x, y, key | x in before[section] && y in now[section] && IdText(section, x) == IdText(section, y)
        && (key in x || key in y) && Get(x, key) != Get(y, key)
        ensures MayChange(section, key) && '.' !in IdText(section, x)
      {
        var m := Marker(section, IdText(section, x), key);
        FieldMarkers(section, a, b, m);
        assert Repairable(section, m.key) && NoDot(m.rid);
        KindsAre(section, key);
      }
    }
    if FieldsShowable(section, before[section], now[section]) {
      forall m | m in FieldDiffs(section, a, b, a.Keys) ensures Repairable(section, m.key) && NoDot(m.rid) {
        FieldMarkers(section, a, b, m);
        assert a[m.rid] in before[section] && b[m.rid] in now[section];
        KindsAre(section, m.key);
      }
    }
  }

  ghost predicate Showable(section: string, was: seq<Row>, next: seq<Row>) {
    RowsShowable(section, was, next) && FieldsShowable(section, was, next)
  }

  lemma PartIs(section: string, before: Snapshot, now: Snapshot)
    requires section in NAMES && Indexed(before, section).Some? && Indexed(now, section).Some?
    ensures section in before && section in now
    ensures PartAllowed(section, before, now) <==> Showable(section, before[section], now[section])
  {
    RowsAre(section, before, now);
    FieldsAre(section, before, now);
    var a, b := Indexed(before, section).value, Indexed(now, section).value;
    assert PartDiffs(section, before, now) == RowDiffs(section, a, b) + FieldDiffs(section, a, b, a.Keys);
    if RowDiffs(section, a, b) != {} {
      var m :| m in RowDiffs(section, a, b);
    }
    assert forall m | m in FieldDiffs(section, a, b, a.Keys) :: m.section == section;
  }

  lemma {:induction false} FromPart(ss: seq<string>, before: Snapshot, now: Snapshot, m: Marker) returns (k: nat)
    requires Readable(ss, before, now) && m in DiffsOf(ss, before, now)
    ensures k < |ss| && m in PartDiffs(ss[k], before, now)
  {
    if m in PartDiffs(ss[|ss| - 1], before, now) {
      k := |ss| - 1;
    } else {
      k := FromPart(ss[..|ss| - 1], before, now, m);
    }
  }

  lemma AllPartsAre(before: Snapshot, now: Snapshot)
    requires Comparable(before, now)
    ensures (PermittedIn(SECTIONS, before, now) && forall m | m in Differences(before, now) :: NoDot(m.rid))
       <==> forall k | 0 <= k < |SECTIONS| :: PartAllowed(SECTIONS[k], before, now)
  {
    var ss := SECTIONS;
    if PermittedIn(ss, before, now) && forall m | m in Differences(before, now) :: NoDot(m.rid) {
      forall k | 0 <= k < |ss| ensures PartAllowed(ss[k], before, now) { SectionIncluded(ss, before, now, k); }
    }
    if forall k | 0 <= k < |ss| :: PartAllowed(ss[k], before, now) {
      forall m | m in Differences(before, now) ensures NoDot(m.rid) {
        var k := FromPart(ss, before, now, m);
      }
    }
  }

  /**
   Two captures are acceptable under some prediction exactly when both are at rest and well keyed, rows came or went only in
   the four repaired sections, no piece of evidence changed and of a delivery row only its link and its error, and no
   row that changed, came or went has a dot in its identity.
   */
  lemma AcceptableExactly(before: Snapshot, now: Snapshot)
    ensures Acceptable(before, now) <==>
      && Resting(before) && Resting(now) && WellKeyed(before) && WellKeyed(now)
      && forall section | section in NAMES :: Showable(section, before[section], now[section])
  {
    ComparableIs(before, now);
    if Comparable(before, now) {
      AcceptableIff(before, now);
      AllPartsAre(before, now);
      forall section ensures section in SECTIONS <==> section in NAMES { SectionsAre(section); }
      forall section | section in NAMES
        ensures Indexed(before, section).Some? && Indexed(now, section).Some?
        ensures PartAllowed(section, before, now) <==> Showable(section, before[section], now[section])
      {
        IsReadable(SECTIONS, before, now, section);
        PartIs(section, before, now);
      }
      AllShowable(SECTIONS, NAMES, before, now);
    }
  }

  lemma IsReadable(ss: seq<string>, before: Snapshot, now: Snapshot, section: string)
    requires Readable(ss, before, now) && section in ss
    ensures Indexed(before, section).Some? && Indexed(now, section).Some?
  {
    var k :| 0 <= k < |ss| && ss[k] == section;
  }

  lemma AllShowable(ss: seq<string>, names: set<string>, before: Snapshot, now: Snapshot)
    requires (forall section :: section in ss <==> section in names) && Readable(ss, before, now)
    requires forall section | section in names :: section in before && section in now
    requires forall section | section in names ::
      && Indexed(before, section).Some? && Indexed(now, section).Some?
      && (PartAllowed(section, before, now) <==> Showable(section, before[section], now[section]))
    ensures (forall k | 0 <= k < |ss| :: PartAllowed(ss[k], before, now))
       <==> forall section | section in names :: Showable(section, before[section], now[section])
  {
    if forall k | 0 <= k < |ss| :: PartAllowed(ss[k], before, now) {
      forall section | section in names ensures Showable(section, before[section], now[section]) {
        var k :| 0 <= k < |ss| && ss[k] == section;
      }
    }
    if forall section | section in names :: Showable(section, before[section], now[section]) {
      forall k | 0 <= k < |ss| ensures PartAllowed(ss[k], before, now) {
        assert ss[k] in names;
      }
    }
  }
}
