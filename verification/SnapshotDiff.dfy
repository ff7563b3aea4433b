/**
 compare_snapshots of scripts/prepare-hardening-release.py: which differences between two captures of the
 database a release may show, and the certificate it prints for them.
 */
module SnapshotDiff {
  import opened Options

  /** A JSON scalar, its kind told apart from its text. */
  datatype Value = Null | Scalar(kind: nat, text: string)

  type Row = map<string, Value>

  type Snapshot = map<string, seq<Row>>

  const STRING := 0
  const ROW := "__row__"
  const ALERTS := "alert_deliveries"

  /** The sections in the order they are compared, alert_deliveries last. */
  const SECTIONS: seq<string> := [
    "action_previews", "alert_delivery_intents", "device_change_window_sources", "device_change_windows",
    "execution_plans", "locks", "recovery_attempt_sources", "reroute_bundle_actions", "reroute_bundles",
    "reroutes", ALERTS
  ]

  function SectionKeys(section: string): seq<string> {
    if section == "action_previews" then ["token_hash"]
    else if section == "device_change_windows" then ["device_id"]
    else if section == "device_change_window_sources" then ["device_id", "source_bundle_id"]
    else if section == "recovery_attempt_sources" then ["recovery_bundle_id", "source_bundle_id"]
    else ["id"]
  }

  function Protected(section: string): set<string> {
    if section == "execution_plans" then
      {"snapshot_json", "plan_hash", "consumed_at", "bundle_id", "user_id", "scope", "scope_id", "created_at"}
    else if section == "action_previews" then {"user_id", "scope", "scope_id", "plan_hash", "used_at", "created_at"}
    else if section == "reroutes" then
      {"prior_state_json", "after_state_json", "planned_steps_json", "rollback_of_reroute_id"}
    else if section == "reroute_bundle_actions" then
      {"rollback_snapshot_json", "prepared_action_json", "original_reroute_id", "reroute_id"}
    else if section == "alert_delivery_intents" then
      {"alert_id", "channel", "target_key", "recipient_id", "endpoint_id", "target_address", "target_encrypted", "created_at"}
    else {}
  }

  /** Sections whose rows may come and go by a predicted repair. */
  predicate Internal(section: string) {
    || section == "device_change_windows" || section == "device_change_window_sources"
    || section == "recovery_attempt_sources" || section == "alert_delivery_intents"
  }

  /** The fields a predicted repair may touch. */
  predicate Repairable(section: string, key: string) {
    if section == ALERTS then key == "delivery_intent_id" || key == "error" else key !in Protected(section)
  }

  // ---- reading a section ----

  /** row.get(key): a missing field reads as null. */
  function Get(row: Row, key: string): Value {
    if key in row then row[key] else Null
  }

  function Str(v: Value): string {
    if v.Null? then "None" else v.text
  }

  predicate HasIdentity(row: Row, keys: seq<string>) {
    forall k | k in keys :: k in row
  }

  /** ":".join(str(row[key]) for key in keys) */
  function Identity(row: Row, keys: seq<string>): string {
    if keys == [] then ""
    else if |keys| == 1 then Str(Get(row, keys[0]))
    else Identity(row, keys[..|keys| - 1]) + ":" + Str(Get(row, keys[|keys| - 1]))
  }

  /** The rest of the rows, added to those indexed so far. */
  function AddRows(rows: seq<Row>, keys: seq<string>, index: map<string, Row>): Option<map<string, Row>> {
    if rows == [] then Some(index)
    else if !HasIdentity(rows[0], keys) then None
    else if Identity(rows[0], keys) in index then None
    else AddRows(rows[1..], keys, index[Identity(rows[0], keys) := rows[0]])
  }

  function Indexed(s: Snapshot, section: string): Option<map<string, Row>> {
    if section in s then AddRows(s[section], SectionKeys(section), map[]) else None
  }

  /** _rows */
  method Rows(s: Snapshot, section: string) returns (r: Option<map<string, Row>>)
    ensures r == Indexed(s, section)
  {
    if section !in s { return None; }
    var value, keys := s[section], SectionKeys(section);
    var result: map<string, Row> := map[];
    for k := 0 to |value|
      invariant AddRows(value[k..], keys, result) == AddRows(value, keys, map[])
    {
      assert value[k..][1..] == value[k + 1..];
      if !HasIdentity(value[k], keys) { return None; }
      var identity := Identity(value[k], keys);
      if identity in result { return None; }
      result := result[identity := value[k]];
    }
    return Some(result);
  }

  /** Reading a section loses no row and invents none. */
  lemma {:induction false} IndexLosesNothing(rows: seq<Row>, keys: seq<string>, index: map<string, Row>)
    requires AddRows(rows, keys, index).Some?
    ensures
      var all := AddRows(rows, keys, index).value;
      && (forall id | id in index :: id in all && all[id] == index[id])
      && (forall row | row in rows :: Identity(row, keys) in all && all[Identity(row, keys)] == row)
      && (forall id | id in all :: id in index || (all[id] in rows && Identity(all[id], keys) == id))
      && |all| == |index| + |rows|
    decreases |rows|
  {
    if rows != [] {
      var id := Identity(rows[0], keys);
      IndexLosesNothing(rows[1..], keys, index[id := rows[0]]);
      assert rows == [rows[0]] + rows[1..];
      assert (index[id := rows[0]]).Keys == index.Keys + {id};
      assert |index[id := rows[0]]| == |index| + 1;
    }
  }

  // ---- the differences ----

  datatype Marker = Marker(section: string, rid: string, key: string)

  /** Rows only one capture has. */
  function RowDiffs(section: string, before: map<string, Row>, now: map<string, Row>): set<Marker> {
    set rid | rid in (before.Keys - now.Keys) + (now.Keys - before.Keys) :: Marker(section, rid, ROW)
  }

  /** Fields in which two captures of one row differ. */
  function FieldsOf(section: string, rid: string, a: Row, b: Row): set<Marker> {
    set key | key in a.Keys + b.Keys && Get(a, key) != Get(b, key) :: Marker(section, rid, key)
  }

  function FieldDiffs(section: string, before: map<string, Row>, now: map<string, Row>, rids: set<string>): set<Marker> {
    set rid, key | rid in rids && rid in before && rid in now && key in before[rid].Keys + now[rid].Keys
      && Get(before[rid], key) != Get(now[rid], key) :: Marker(section, rid, key)
  }

  function SectionDiffs(section: string, before: map<string, Row>, now: map<string, Row>): set<Marker> {
    RowDiffs(section, before, now) + FieldDiffs(section, before, now, before.Keys)
  }

  /** No difference of the section is of a kind no prediction may allow. */
  ghost predicate SectionPermitted(section: string, before: map<string, Row>, now: map<string, Row>) {
    && (RowDiffs(section, before, now) != {} ==> Internal(section))
    && (forall m | m in FieldDiffs(section, before, now, before.Keys) :: Repairable(section, m.key))
  }

  // ---- predictions ----

  /** The parts of item.split(".", 2). */
  function SplitOnce(s: string): (r: seq<string>)
    ensures |r| == 1 || |r| == 2
  {
    if s == "" then [""]
    else if s[0] == '.' then ["", s[1..]]
    else
      var rest := SplitOnce(s[1..]);
      [[s[0]] + rest[0]] + rest[1..]
  }

  function Split2(item: string): seq<string> {
    var first := SplitOnce(item);
    if |first| == 1 then first else [first[0]] + SplitOnce(first[1])
  }

  /** ".".join(marker) */
  function Join(m: Marker): string {
    m.section + "." + m.rid + "." + m.key
  }

  function PartsOf(m: Marker): seq<string> {
    [m.section, m.rid, m.key]
  }

  function Allowed(predicted: seq<string>): set<seq<string>> {
    set item | item in predicted :: Split2(item)
  }

  ghost predicate NoDot(s: string) { '.' !in s }

  lemma {:induction false} SplitJoined(a: string, b: string)
    ensures NoDot(a) ==> SplitOnce(a + "." + b) == [a, b]
  {
    if NoDot(a) {
      var s := a + "." + b;
      if a != "" {
        SplitJoined(a[1..], b);
        assert a[0] in a && forall c | c in a[1..] :: c in a;
        assert s[1..] == a[1..] + "." + b && a == [a[0]] + a[1..];
      } else {
        assert s[1..] == b;
      }
    }
  }

  lemma {:induction false} SplitParts(s: string)
    ensures
      var r := SplitOnce(s);
      NoDot(r[0]) && (if |r| == 1 then s == r[0] else s == r[0] + "." + r[1])
  {
    if s == "" {
    } else {
      assert s == [s[0]] + s[1..];
      if s[0] != '.' {
        SplitParts(s[1..]);
        var rest := SplitOnce(s[1..]);
        assert SplitOnce(s)[0] == [s[0]] + rest[0];
        assert |rest| == 2 ==> s == [s[0]] + rest[0] + "." + rest[1];
      } else {
        assert [s[0]] == ".";
      }
    }
  }

  /** A prediction names a marker exactly when it is its text and neither section nor identity holds a dot. */
  lemma PredictionNames(item: string, m: Marker)
    ensures Split2(item) == PartsOf(m) <==> item == Join(m) && NoDot(m.section) && NoDot(m.rid)
  {
    if item == Join(m) && NoDot(m.section) && NoDot(m.rid) {
      assert item == m.section + "." + (m.rid + "." + m.key);
      SplitJoined(m.section, m.rid + "." + m.key);
      SplitJoined(m.rid, m.key);
    }
    if Split2(item) == PartsOf(m) {
      var first := SplitOnce(item);
      assert |Split2(item)| == 3;
      var second := SplitOnce(first[1]);
      SplitParts(item);
      SplitParts(first[1]);
      assert Split2(item)[0] == first[0] && Split2(item)[1] == second[0] && Split2(item)[2] == second[1];
      assert item == m.section + "." + (m.rid + "." + m.key);
    }
  }

  // ---- the comparison ----

  predicate Is(v: Value, text: string) { v == Scalar(STRING, text) }

  predicate Active(row: Row) {
    var state := Get(row, "state");
    Is(state, "planned") || Is(state, "pending") || Is(state, "running") || Is(state, "verifying")
  }

  predicate ActiveBundle(row: Row) {
    || Active(row) || Is(Get(row, "state"), "compensating")
    || Is(Get(row, "lifecycle_state"), "recovery_claimed") || Is(Get(row, "lifecycle_state"), "recovery_running")
  }

  /** _assert_stopped: every section is there and nothing is executing. */
  predicate Stopped(s: Snapshot) {
    && (forall k | k in SECTIONS :: k in s)
    && "reroute_bundles" in s && "reroutes" in s
    && (forall r | r in s["reroute_bundles"] :: !ActiveBundle(r))
    && (forall r | r in s["reroutes"] :: !Active(r))
  }

  ghost predicate Readable(ss: seq<string>, before: Snapshot, now: Snapshot) {
    forall k | 0 <= k < |ss| :: Indexed(before, ss[k]).Some? && Indexed(now, ss[k]).Some?
  }

  ghost function PartDiffs(section: string, before: Snapshot, now: Snapshot): set<Marker>
    requires Indexed(before, section).Some? && Indexed(now, section).Some?
  {
    SectionDiffs(section, Indexed(before, section).value, Indexed(now, section).value)
  }

  ghost predicate PartPermitted(section: string, before: Snapshot, now: Snapshot)
    requires Indexed(before, section).Some? && Indexed(now, section).Some?
  {
    SectionPermitted(section, Indexed(before, section).value, Indexed(now, section).value)
  }

  /** All differences of these sections. */
  ghost function DiffsOf(ss: seq<string>, before: Snapshot, now: Snapshot): set<Marker>
    requires Readable(ss, before, now)
  {
    if ss == [] then {}
    else DiffsOf(ss[..|ss| - 1], before, now) + PartDiffs(ss[|ss| - 1], before, now)
  }

  ghost predicate PermittedIn(ss: seq<string>, before: Snapshot, now: Snapshot)
    requires Readable(ss, before, now)
  {
    forall k | 0 <= k < |ss| :: PartPermitted(ss[k], before, now)
  }

  ghost predicate Comparable(before: Snapshot, now: Snapshot) {
    Stopped(before) && Stopped(now) && Readable(SECTIONS, before, now)
  }

  ghost function Differences(before: Snapshot, now: Snapshot): set<Marker>
    requires Comparable(before, now)
  {
    DiffsOf(SECTIONS, before, now)
  }

  ghost predicate Predicted(diffs: set<Marker>, predicted: seq<string>) {
    forall m | m in diffs :: PartsOf(m) in Allowed(predicted)
  }

  ghost predicate Accepts(before: Snapshot, now: Snapshot, predicted: seq<string>) {
    Comparable(before, now) && PermittedIn(SECTIONS, before, now) && Predicted(Differences(before, now), predicted)
  }

  /** `changes` prints each marker of `diffs` once. */
  ghost predicate Lists(changes: seq<string>, ms: seq<Marker>, diffs: set<Marker>) {
    && |changes| == |ms| == |diffs|
    && (forall k | 0 <= k < |ms| :: changes[k] == Join(ms[k]) && ms[k] in diffs)
    && (forall m | m in diffs :: m in ms)
  }

  lemma ListOne(changes: seq<string>, ms: seq<Marker>, diffs: set<Marker>, m: Marker)
    requires Lists(changes, ms, diffs) && m !in diffs
    ensures Lists(changes + [Join(m)], ms + [m], diffs + {m})
  {
    assert (ms + [m])[|ms|] == m;
    forall x | x in diffs ensures x in ms + [m] {
      assert x in ms;
    }
  }

  lemma ListBoth(c1: seq<string>, m1: seq<Marker>, d1: set<Marker>, c2: seq<string>, m2: seq<Marker>, d2: set<Marker>)
    requires Lists(c1, m1, d1) && Lists(c2, m2, d2) && d1 !! d2
    ensures Lists(c1 + c2, m1 + m2, d1 + d2)
  {
    forall x | x in d1 + d2 ensures x in m1 + m2 {
      assert x in m1 || x in m2;
    }
  }

  /** Rows that came or went: each must be a predicted repair of an internal section. */
  method CompareRows(section: string, before: map<string, Row>, now: map<string, Row>, allowed: set<seq<string>>)
    returns (ok: bool, changes: seq<string>, ghost ms: seq<Marker>)
    ensures ok <==> (forall m | m in RowDiffs(section, before, now) :: Internal(section) && PartsOf(m) in allowed)
    ensures ok ==> Lists(changes, ms, RowDiffs(section, before, now))
  {
    var all := (before.Keys - now.Keys) + (now.Keys - before.Keys);
    var todo := all;
    changes, ms := [], [];
    ghost var done: set<Marker> := {};
    while todo != {}
      invariant todo <= all && Lists(changes, ms, done)
      invariant done == set rid | rid in all - todo :: Marker(section, rid, ROW)
      invariant forall m | m in done :: Internal(section) && PartsOf(m) in allowed
      decreases todo
    {
      var rid :| rid in todo;
      var marker := Marker(section, rid, ROW);
      assert marker in RowDiffs(section, before, now);
      if !Internal(section) || PartsOf(marker) !in allowed { return false, changes, ms; }
      ListOne(changes, ms, done, marker);
      changes, ms, done := changes + [Join(marker)], ms + [marker], done + {marker};
      todo := todo - {rid};
    }
    assert done == RowDiffs(section, before, now);
    ok := true;
  }

  /** The fields looked at so far. */
  function FieldsIn(section: string, rid: string, a: Row, b: Row, keys: set<string>): set<Marker> {
    set key | key in keys && Get(a, key) != Get(b, key) :: Marker(section, rid, key)
  }

  lemma NextField(section: string, rid: string, a: Row, b: Row, keys: set<string>, key: string)
    requires key !in keys
    ensures FieldsIn(section, rid, a, b, keys + {key})
         == FieldsIn(section, rid, a, b, keys) + if Get(a, key) != Get(b, key) then {Marker(section, rid, key)} else {}
    ensures Marker(section, rid, key) !in FieldsIn(section, rid, a, b, keys)
  {
  }

  lemma NextTodo(section: string, rid: string, a: Row, b: Row, todo: set<string>, key: string)
    requires todo <= a.Keys + b.Keys && key in todo
    ensures
      var seen := FieldsIn(section, rid, a, b, (a.Keys + b.Keys) - todo);
      && Marker(section, rid, key) !in seen
      && FieldsIn(section, rid, a, b, (a.Keys + b.Keys) - (todo - {key}))
         == if Get(a, key) != Get(b, key) then seen + {Marker(section, rid, key)} else seen
  {
    var seen := (a.Keys + b.Keys) - todo;
    NextField(section, rid, a, b, seen, key);
    assert (a.Keys + b.Keys) - (todo - {key}) == seen + {key};
  }

  predicate FieldOk(m: Marker, allowed: set<seq<string>>) {
    Repairable(m.section, m.key) && PartsOf(m) in allowed
  }

  /** The fields of one row both captures have. */
  method CompareFields(section: string, rid: string, a: Row, b: Row, allowed: set<seq<string>>)
    returns (ok: bool, changes: seq<string>, ghost ms: seq<Marker>)
    ensures ok <==> (forall m | m in FieldsOf(section, rid, a, b) :: FieldOk(m, allowed))
    ensures ok ==> Lists(changes, ms, FieldsOf(section, rid, a, b))
  {
    var keys := a.Keys + b.Keys;
    var todo := keys;
    changes, ms := [], [];
    while todo != {}
      invariant todo <= keys && Lists(changes, ms, FieldsIn(section, rid, a, b, keys - todo))
      invariant forall m | m in FieldsIn(section, rid, a, b, keys - todo) :: FieldOk(m, allowed)
      decreases todo
    {
      var key :| key in todo;
      var marker := Marker(section, rid, key);
      NextTodo(section, rid, a, b, todo, key);
      if Get(a, key) != Get(b, key) {
        if !FieldOk(marker, allowed) {
          assert marker in FieldsOf(section, rid, a, b);
          return false, changes, ms;
        }
        ListOne(changes, ms, FieldsIn(section, rid, a, b, keys - todo), marker);
        changes, ms := changes + [Join(marker)], ms + [marker];
      }
      todo := todo - {key};
    }
    assert FieldsIn(section, rid, a, b, keys - todo) == FieldsOf(section, rid, a, b);
    ok := true;
  }

  lemma NextRowFields(section: string, before: map<string, Row>, now: map<string, Row>, rids: set<string>, rid: string)
    requires rid !in rids && rid in before
    ensures FieldDiffs(section, before, now, rids + {rid})
         == FieldDiffs(section, before, now, rids)
            + if rid in now then FieldsOf(section, rid, before[rid], now[rid]) else {}
    ensures rid in now ==> FieldDiffs(section, before, now, rids) !! FieldsOf(section, rid, before[rid], now[rid])
  {
  }

  method CompareShared(section: string, before: map<string, Row>, now: map<string, Row>, allowed: set<seq<string>>)
    returns (ok: bool, changes: seq<string>, ghost ms: seq<Marker>)
    ensures ok <==> (forall m | m in FieldDiffs(section, before, now, before.Keys) :: FieldOk(m, allowed))
    ensures ok ==> Lists(changes, ms, FieldDiffs(section, before, now, before.Keys))
  {
    var todo := before.Keys;
    changes, ms := [], [];
    while todo != {}
      invariant todo <= before.Keys
      invariant Lists(changes, ms, FieldDiffs(section, before, now, before.Keys - todo))
      invariant forall m | m in FieldDiffs(section, before, now, before.Keys - todo) :: FieldOk(m, allowed)
      decreases todo
    {
      var rid :| rid in todo;
      NextRowFields(section, before, now, before.Keys - todo, rid);
      assert before.Keys - (todo - {rid}) == (before.Keys - todo) + {rid};
      if rid in now {
        ghost var looked := FieldDiffs(section, before, now, before.Keys - todo);
        var fine, more;
        ghost var markers;
        fine, more, markers := CompareFields(section, rid, before[rid], now[rid], allowed);
        if !fine {
          SharedFields(section, before, now, rid);
          return false, changes, ms;
        }
        ListBoth(changes, ms, looked, more, markers, FieldsOf(section, rid, before[rid], now[rid]));
        changes, ms := changes + more, ms + markers;
      }
      todo := todo - {rid};
    }
    assert before.Keys - todo == before.Keys;
    ok := true;
  }

  lemma SharedFields(section: string, before: map<string, Row>, now: map<string, Row>, rid: string)
    requires rid in before && rid in now
    ensures FieldsOf(section, rid, before[rid], now[rid]) <= FieldDiffs(section, before, now, before.Keys)
  {
  }

  /** One section of the outer loop. */
  method CompareSection(section: string, before: map<string, Row>, now: map<string, Row>, allowed: set<seq<string>>)
    returns (ok: bool, changes: seq<string>, ghost ms: seq<Marker>)
    ensures ok <==> SectionPermitted(section, before, now) && forall m | m in SectionDiffs(section, before, now) :: PartsOf(m) in allowed
    ensures ok ==> Lists(changes, ms, SectionDiffs(section, before, now))
  {
    var rowsOk, rows;
    ghost var rowMarkers;
    rowsOk, rows, rowMarkers := CompareRows(section, before, now, allowed);
    if !rowsOk { return false, rows, rowMarkers; }
    var fieldsOk, fields;
    ghost var fieldMarkers;
    fieldsOk, fields, fieldMarkers := CompareShared(section, before, now, allowed);
    if !fieldsOk { return false, rows, rowMarkers; }
    ListBoth(rows, rowMarkers, RowDiffs(section, before, now), fields, fieldMarkers, FieldDiffs(section, before, now, before.Keys));
    return true, rows + fields, rowMarkers + fieldMarkers;
  }

  ghost predicate DistinctNames(ss: seq<string>) {
    forall j, k | 0 <= j < k < |ss| :: ss[j] != ss[k]
  }

  lemma SectionsDistinct()
    ensures DistinctNames(SECTIONS)
    ensures forall k | 0 <= k < |SECTIONS| :: NoDot(SECTIONS[k])
  {
  }

  lemma {:induction false} DiffSections(ss: seq<string>, before: Snapshot, now: Snapshot)
    requires Readable(ss, before, now)
    ensures forall m | m in DiffsOf(ss, before, now) :: m.section in ss
  {
    if ss != [] {
      DiffSections(ss[..|ss| - 1], before, now);
      assert forall s | s in ss[..|ss| - 1] :: s in ss;
    }
  }

  lemma ListSection(ss: seq<string>, section: string, before: Snapshot, now: Snapshot,
                    r: seq<string>, ms: seq<Marker>, r2: seq<string>, ms2: seq<Marker>)
    requires Readable(ss, before, now) && Readable(ss + [section], before, now) && section !in ss
    requires Indexed(before, section).Some? && Indexed(now, section).Some?
    requires Lists(r, ms, DiffsOf(ss, before, now)) && Lists(r2, ms2, PartDiffs(section, before, now))
    ensures Lists(r + r2, ms + ms2, DiffsOf(ss + [section], before, now))
  {
    assert (ss + [section])[..|ss|] == ss;
    DiffSections(ss, before, now);
    PartSection(section, before, now);
    ListBoth(r, ms, DiffsOf(ss, before, now), r2, ms2, PartDiffs(section, before, now));
  }

  lemma PartSection(section: string, before: Snapshot, now: Snapshot)
    requires Indexed(before, section).Some? && Indexed(now, section).Some?
    ensures forall m | m in PartDiffs(section, before, now) :: m.section == section
  {
  }

  lemma PredictSection(ss: seq<string>, section: string, before: Snapshot, now: Snapshot, predicted: seq<string>)
    requires Readable(ss, before, now) && Readable(ss + [section], before, now)
    requires Indexed(before, section).Some? && Indexed(now, section).Some?
    requires Predicted(DiffsOf(ss, before, now), predicted) && Predicted(PartDiffs(section, before, now), predicted)
    ensures Predicted(DiffsOf(ss + [section], before, now), predicted)
  {
    assert (ss + [section])[..|ss|] == ss;
  }

  lemma PermitSection(ss: seq<string>, section: string, before: Snapshot, now: Snapshot)
    requires Readable(ss, before, now) && Indexed(before, section).Some? && Indexed(now, section).Some?
    requires PermittedIn(ss, before, now) && PartPermitted(section, before, now)
    ensures Readable(ss + [section], before, now) && PermittedIn(ss + [section], before, now)
  {
  }

  /** A section is part of the whole. */
  lemma {:induction false} SectionIncluded(ss: seq<string>, before: Snapshot, now: Snapshot, k: nat)
    requires k < |ss| && Readable(ss, before, now)
    ensures PartDiffs(ss[k], before, now) <= DiffsOf(ss, before, now)
  {
    if k < |ss| - 1 {
      SectionIncluded(ss[..|ss| - 1], before, now, k);
    }
  }

  ghost predicate PartAccepted(section: string, before: Snapshot, now: Snapshot, predicted: seq<string>) {
    && Indexed(before, section).Some? && Indexed(now, section).Some?
    && PartPermitted(section, before, now) && Predicted(PartDiffs(section, before, now), predicted)
  }

  ghost predicate AllAccepted(ss: seq<string>, before: Snapshot, now: Snapshot, predicted: seq<string>) {
    Readable(ss, before, now) && PermittedIn(ss, before, now) && Predicted(DiffsOf(ss, before, now), predicted)
  }

  method ComparePart(section: string, before: Snapshot, now: Snapshot, predicted: seq<string>)
    returns (ok: bool, changes: seq<string>, ghost ms: seq<Marker>)
    ensures ok <==> PartAccepted(section, before, now, predicted)
    ensures ok ==> Lists(changes, ms, PartDiffs(section, before, now))
  {
    var was := Rows(before, section);
    var next := Rows(now, section);
    if was.None? || next.None? { return false, [], []; }
    ok, changes, ms := CompareSection(section, was.value, next.value, Allowed(predicted));
  }

  lemma NextSection(ss: seq<string>, section: string, before: Snapshot, now: Snapshot, predicted: seq<string>,
                    r: seq<string>, ms: seq<Marker>, r2: seq<string>, ms2: seq<Marker>)
    requires section !in ss
    requires AllAccepted(ss, before, now, predicted) && Lists(r, ms, DiffsOf(ss, before, now))
    requires PartAccepted(section, before, now, predicted) && Lists(r2, ms2, PartDiffs(section, before, now))
    ensures AllAccepted(ss + [section], before, now, predicted)
    ensures Lists(r + r2, ms + ms2, DiffsOf(ss + [section], before, now))
  {
    PermitSection(ss, section, before, now);
    PredictSection(ss, section, before, now, predicted);
    ListSection(ss, section, before, now, r, ms, r2, ms2);
  }

  /** The loop over the sections. */
  method CompareAll(ss: seq<string>, before: Snapshot, now: Snapshot, predicted: seq<string>)
    returns (ok: bool, repairs: seq<string>, ghost ms: seq<Marker>)
    requires DistinctNames(ss)
    ensures ok <==> AllAccepted(ss, before, now, predicted)
    ensures ok ==> Lists(repairs, ms, DiffsOf(ss, before, now))
  {
    repairs, ms := [], [];
    for k := 0 to |ss|
      invariant AllAccepted(ss[..k], before, now, predicted) && Lists(repairs, ms, DiffsOf(ss[..k], before, now))
    {
      var fine, more;
      ghost var markers;
      fine, more, markers := ComparePart(ss[k], before, now, predicted);
      if !fine {
        Refused(ss, before, now, predicted, k);
        return false, repairs, ms;
      }
      Apart(ss, k);
      NextSection(ss[..k], ss[k], before, now, predicted, repairs, ms, more, markers);
      repairs, ms := repairs + more, ms + markers;
    }
    assert ss[..|ss|] == ss;
    ok := true;
  }

  lemma Apart(ss: seq<string>, k: nat)
    requires DistinctNames(ss) && k < |ss|
    ensures ss[k] !in ss[..k] && ss[..k + 1] == ss[..k] + [ss[k]]
  {
  }

  /** A section that fails refuses the whole comparison. */
  lemma Refused(ss: seq<string>, before: Snapshot, now: Snapshot, predicted: seq<string>, k: nat)
    requires k < |ss| && !PartAccepted(ss[k], before, now, predicted)
    ensures !AllAccepted(ss, before, now, predicted)
  {
    if Readable(ss, before, now) {
      SectionIncluded(ss, before, now, k);
    }
  }

  /** compare_snapshots, up to the order in which the repairs are printed. */
  method CompareSnapshots(before: Snapshot, now: Snapshot, predicted: seq<string>)
    returns (ok: bool, repairs: seq<string>, ghost ms: seq<Marker>)
    ensures ok <==> Accepts(before, now, predicted)
    ensures ok ==> Lists(repairs, ms, Differences(before, now))
  {
    var stopped := Stopped(before) && Stopped(now);
    if !stopped { return false, [], []; }
    assert DistinctNames(SECTIONS) by { SectionsDistinct(); }
    ok, repairs, ms := CompareAll(SECTIONS, before, now, predicted);
    WholeIsAll(before, now, predicted);
  }

  lemma WholeIsAll(before: Snapshot, now: Snapshot, predicted: seq<string>)
    ensures Accepts(before, now, predicted) <==> Stopped(before) && Stopped(now) && AllAccepted(SECTIONS, before, now, predicted)
    ensures Accepts(before, now, predicted) ==> Differences(before, now) == DiffsOf(SECTIONS, before, now)
  {
  }

  // ---- the certificate ----

  lemma {:induction false} PermittedMarkers(ss: seq<string>, before: Snapshot, now: Snapshot, m: Marker)
    requires Readable(ss, before, now) && PermittedIn(ss, before, now) && m in DiffsOf(ss, before, now)
    ensures Repairable(m.section, m.key) || (m.key == ROW && Internal(m.section))
  {
    if m !in PartDiffs(ss[|ss| - 1], before, now) {
      PermittedMarkers(ss[..|ss| - 1], before, now, m);
    }
  }

  lemma AllowedHas(predicted: seq<string>, m: Marker) returns (item: string)
    requires PartsOf(m) in Allowed(predicted)
    ensures item in predicted && item == Join(m) && NoDot(m.section) && NoDot(m.rid)
  {
    item :| item in predicted && Split2(item) == PartsOf(m);
    PredictionNames(item, m);
  }

  lemma AllowedIff(predicted: seq<string>, m: Marker)
    ensures PartsOf(m) in Allowed(predicted) <==> Join(m) in predicted && NoDot(m.section) && NoDot(m.rid)
  {
    if PartsOf(m) in Allowed(predicted) {
      var item := AllowedHas(predicted, m);
    }
    if Join(m) in predicted && NoDot(m.section) && NoDot(m.rid) {
      PredictionNames(Join(m), m);
    }
  }

  lemma ListedText(changes: seq<string>, ms: seq<Marker>, diffs: set<Marker>, m: Marker)
    requires Lists(changes, ms, diffs) && m in diffs
    ensures Join(m) in changes
  {
    assert m in ms;
    var k :| 0 <= k < |ms| && ms[k] == m;
    assert changes[k] == Join(m);
  }

  lemma ListedMarker(changes: seq<string>, ms: seq<Marker>, diffs: set<Marker>, text: string) returns (m: Marker)
    requires Lists(changes, ms, diffs) && text in changes
    ensures m in diffs && Join(m) == text
  {
    var k :| 0 <= k < |changes| && changes[k] == text;
    m := ms[k];
  }

  /** Once some prediction allows the differences, another does exactly when it names their texts. */
  lemma OtherPrediction(diffs: set<Marker>, predicted: seq<string>, other: seq<string>)
    requires Predicted(diffs, predicted)
    ensures forall m | m in diffs :: Join(m) in predicted
    ensures Predicted(diffs, other) <==> forall m | m in diffs :: Join(m) in other
  {
    forall m | m in diffs ensures Join(m) in predicted && (PartsOf(m) in Allowed(other) <==> Join(m) in other) {
      AllowedIff(predicted, m);
      AllowedIff(other, m);
    }
  }

  lemma ListedTexts(changes: seq<string>, ms: seq<Marker>, diffs: set<Marker>, other: seq<string>)
    requires Lists(changes, ms, diffs)
    ensures (forall m | m in diffs :: Join(m) in other) <==> forall r | r in changes :: r in other
  {
    forall m | m in diffs ensures Join(m) in changes { ListedText(changes, ms, diffs, m); }
    forall r | r in changes ensures exists m | m in diffs :: Join(m) == r {
      var m := ListedMarker(changes, ms, diffs, r);
    }
  }

  /** Everything reported was predicted word for word, is a real difference, and touches no protected field. */
  lemma ReportedWerePredicted(before: Snapshot, now: Snapshot, predicted: seq<string>, repairs: seq<string>, ms: seq<Marker>)
    requires Accepts(before, now, predicted) && Lists(repairs, ms, Differences(before, now))
    ensures forall r | r in repairs :: r in predicted
    ensures forall m | m in Differences(before, now) ::
      Join(m) in repairs && (m.key !in Protected(m.section) || (m.key == ROW && Internal(m.section)))
  {
    var ss, diffs := SECTIONS, Differences(before, now);
    OtherPrediction(diffs, predicted, predicted);
    ListedTexts(repairs, ms, diffs, predicted);
    forall m | m in diffs
      ensures Join(m) in repairs && (m.key !in Protected(m.section) || (m.key == ROW && Internal(m.section)))
    {
      PermittedMarkers(ss, before, now, m);
      ListedText(repairs, ms, diffs, m);
    }
  }

  /** The printed list is itself a sufficient prediction. */
  lemma ReportSuffices(before: Snapshot, now: Snapshot, predicted: seq<string>, repairs: seq<string>, ms: seq<Marker>)
    requires Accepts(before, now, predicted) && Lists(repairs, ms, Differences(before, now))
    ensures Accepts(before, now, repairs)
  {
    var diffs := Differences(before, now);
    OtherPrediction(diffs, predicted, repairs);
    ListedTexts(repairs, ms, diffs, repairs);
  }

  /** And it is the least one: a prediction is accepted exactly when it names everything on the list. */
  lemma ReportIsLeast(before: Snapshot, now: Snapshot, predicted: seq<string>, repairs: seq<string>, ms: seq<Marker>, other: seq<string>)
    requires Accepts(before, now, predicted) && Lists(repairs, ms, Differences(before, now))
    ensures Accepts(before, now, other) <==> forall r | r in repairs :: r in other
  {
    var diffs := Differences(before, now);
    OtherPrediction(diffs, predicted, other);
    ListedTexts(repairs, ms, diffs, other);
  }

  ghost predicate Acceptable(before: Snapshot, now: Snapshot) {
    exists predicted :: Accepts(before, now, predicted)
  }

  /** Some prediction is accepted exactly when every difference is of a permitted kind and no identity holds a dot. */
  lemma AcceptableIff(before: Snapshot, now: Snapshot)
    requires Comparable(before, now)
    ensures Acceptable(before, now) <==>
      PermittedIn(SECTIONS, before, now) && forall m | m in Differences(before, now) :: NoDot(m.rid)
  {
    var diffs := Differences(before, now);
    if Acceptable(before, now) {
      var predicted :| Accepts(before, now, predicted);
      forall m | m in diffs ensures NoDot(m.rid) { AllowedIff(predicted, m); }
    }
    if PermittedIn(SECTIONS, before, now) && forall m | m in diffs :: NoDot(m.rid) {
      var all := Texts(diffs);
      SectionsDistinct();
      DiffSections(SECTIONS, before, now);
      forall m | m in diffs ensures PartsOf(m) in Allowed(all) { AllowedIff(all, m); }
      assert Accepts(before, now, all);
    }
  }

  lemma {:induction false} Texts(ms: set<Marker>) returns (r: seq<string>)
    ensures forall m | m in ms :: Join(m) in r
    decreases ms
  {
    r := [];
    if ms != {} {
      var m :| m in ms;
      var rest := Texts(ms - {m});
      r := rest + [Join(m)];
      assert r[|rest|] == Join(m);
    }
  }

  // ---- an identity with a dot ----

  /** A capture of a stopped controller whose only row is one lock. */
  function OneLock(id: string, reason: string): Snapshot {
    map section | section in SECTIONS :: if section == "locks" then [LockRow(id, reason)] else []
  }

  function LockRow(id: string, reason: string): Row {
    map["id" := Scalar(STRING, id), "reason" := Scalar(STRING, reason)]
  }

  lemma OneLockIndexed(id: string, reason: string, section: string)
    requires section in SECTIONS
    ensures Indexed(OneLock(id, reason), section)
         == Some(if section == "locks" then map[id := LockRow(id, reason)] else map[])
  {
    if section == "locks" {
      var rows := [LockRow(id, reason)];
      assert OneLock(id, reason)[section] == rows && rows[1..] == [];
      assert SectionKeys(section) == ["id"] && Identity(rows[0], ["id"]) == id;
      assert AddRows(rows, ["id"], map[]) == AddRows([], ["id"], map[id := rows[0]]);
    }
  }

  lemma OneLockParts(id: string, section: string, earlier: string, later: string)
    requires section in SECTIONS && earlier != later
    ensures Indexed(OneLock(id, earlier), section).Some? && Indexed(OneLock(id, later), section).Some?
    ensures PartPermitted(section, OneLock(id, earlier), OneLock(id, later))
    ensures section == "locks" ==> Marker(section, id, "reason") in PartDiffs(section, OneLock(id, earlier), OneLock(id, later))
  {
    OneLockIndexed(id, earlier, section);
    OneLockIndexed(id, later, section);
  }

  lemma OneLockStopped(id: string, reason: string)
    ensures Stopped(OneLock(id, reason))
  {
    var s := OneLock(id, reason);
    assert SECTIONS[8] == "reroute_bundles" && SECTIONS[9] == "reroutes";
    assert s["reroute_bundles"] == [] && s["reroutes"] == [];
  }

  lemma OneLockPermitted(ss: seq<string>, id: string, earlier: string, later: string)
    requires (forall k | 0 <= k < |ss| :: ss[k] in SECTIONS) && earlier != later
    ensures Readable(ss, OneLock(id, earlier), OneLock(id, later))
    ensures PermittedIn(ss, OneLock(id, earlier), OneLock(id, later))
  {
    forall k | 0 <= k < |ss|
      ensures Indexed(OneLock(id, earlier), ss[k]).Some? && Indexed(OneLock(id, later), ss[k]).Some?
      ensures PartPermitted(ss[k], OneLock(id, earlier), OneLock(id, later))
    {
      OneLockParts(id, ss[k], earlier, later);
    }
  }

  lemma OneLockDiffers(ss: seq<string>, id: string, earlier: string, later: string, k: nat)
    requires Readable(ss, OneLock(id, earlier), OneLock(id, later)) && earlier != later
    requires k < |ss| && ss[k] == "locks" && "locks" in SECTIONS
    ensures Marker("locks", id, "reason") in DiffsOf(ss, OneLock(id, earlier), OneLock(id, later))
  {
    OneLockParts(id, "locks", earlier, later);
    SectionIncluded(ss, OneLock(id, earlier), OneLock(id, later), k);
  }

  lemma OneLockComparable(id: string, earlier: string, later: string)
    requires earlier != later
    ensures Comparable(OneLock(id, earlier), OneLock(id, later))
    ensures PermittedIn(SECTIONS, OneLock(id, earlier), OneLock(id, later))
  {
    OneLockPermitted(SECTIONS, id, earlier, later);
    OneLockStopped(id, earlier);
    OneLockStopped(id, later);
  }

  lemma LocksCompared(ss: seq<string>)
    requires ss == SECTIONS
    ensures |ss| == 11 && ss[5] == "locks" && "locks" in ss
  {
  }

  lemma OneLockDifference(id: string, earlier: string, later: string)
    requires earlier != later && Comparable(OneLock(id, earlier), OneLock(id, later))
    ensures Marker("locks", id, "reason") in Differences(OneLock(id, earlier), OneLock(id, later))
  {
    var ss := SECTIONS;
    LocksCompared(ss);
    OneLockDiffers(ss, id, earlier, later, 5);
  }

  /** The reason of a lock whose identity holds a dot changes: a permitted difference that no prediction can allow. */
  lemma DottedIdentityNeverAccepted(id: string, earlier: string, later: string)
    requires !NoDot(id) && earlier != later
    ensures
      var before, now := OneLock(id, earlier), OneLock(id, later);
      Comparable(before, now) && PermittedIn(SECTIONS, before, now) && !Acceptable(before, now)
  {
    OneLockComparable(id, earlier, later);
    OneLockDifference(id, earlier, later);
    AcceptableIff(OneLock(id, earlier), OneLock(id, later));
  }
}
