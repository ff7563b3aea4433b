/** The retention loop of backend-rust/src/scheduler.rs: batched deletes, and the exporters dropped after them. */
module Retention {
  import opened Options
  import opened Ranking

  const DAY := 86_400
  const BATCH: nat := 1000
  const U32_MAX := 0xFFFF_FFFF

  /** `held` is the table's own exemption: a row that must not go whatever its age. */
  datatype Row = Row(time: int, held: bool)

  type Table = map<nat, Row>

  /** A configured window of 0 counts as one day. */
  function Days(configured: nat): (r: nat)
    ensures r >= 1
  {
    if configured < 1 then 1 else configured
  }

  predicate Expired(time: int, configured: nat, now: int) {
    time < now - Days(configured) * DAY
  }

  predicate Eligible(r: Row, configured: nat, now: int) {
    Expired(r.time, configured, now) && !r.held
  }

  /** The rows the DELETE may take, keyed by its ORDER BY. */
  function EligibleKeys(t: Table, configured: nat, now: int): Keyed {
    map id | id in t && Eligible(t[id], configured, now) :: Key(t[id].time, 0, id)
  }

  /** The oldest eligible rows are gone, at most BATCH of them. */
  ghost predicate Takes(t: Table, configured: nat, now: int, batch: seq<nat>, rest: Table, affected: nat) {
    IsLowest(EligibleKeys(t, configured, now), BATCH, batch) && rest == t - AsSet(batch) && affected == |batch| <= BATCH
  }

  /** One DELETE. */
  method DeleteBatch(t: Table, configured: nat, now: int) returns (rest: Table, affected: nat)
    ensures exists batch :: Takes(t, configured, now, batch, rest, affected)
  {
    var ids := TakeLowest(EligibleKeys(t, configured, now), BATCH);
    rest, affected := t - AsSet(ids), |ids|;
    assert Takes(t, configured, now, ids, rest, affected);
  }

  /** A batch that is not full took everything there was. */
  lemma ShortBatchTakesAll(t: Table, configured: nat, now: int, batch: seq<nat>)
    requires IsLowest(EligibleKeys(t, configured, now), BATCH, batch) && |batch| < BATCH
    ensures forall id | id in t && Eligible(t[id], configured, now) :: id in AsSet(batch)
  {
    var keys := EligibleKeys(t, configured, now);
    DistinctSize(batch);
    forall id | id in t && Eligible(t[id], configured, now) ensures id in AsSet(batch) {
      assert id in keys;
      if id !in batch {
        UnservedWaitsBehind(keys, BATCH, batch, id);
      }
    }
  }

  datatype Deleted = Deleted(id: nat, row: Row, at: int)

  function Logged(t: Table, batch: seq<nat>, at: int): (r: seq<Deleted>)
    requires forall id | id in batch :: id in t
    ensures |r| == |batch|
  {
    seq(|batch|, k requires 0 <= k < |batch| => Deleted(batch[k], t[batch[k]], at))
  }

  ghost predicate Gone(log: seq<Deleted>, id: nat) {
    exists k | 0 <= k < |log| :: log[k].id == id
  }

  /** Everything deleted so far was eligible when its statement ran, at or before `now`. */
  ghost predicate AllEligible(log: seq<Deleted>, configured: nat, now: int) {
    forall k | 0 <= k < |log| :: Eligible(log[k].row, configured, log[k].at) && log[k].at <= now
  }

  /** No row of the start has gone without being deleted, and without other writers nothing else has happened. */
  ghost predicate OnlyDeleted(t0: Table, t: Table, log: seq<Deleted>, alone: bool) {
    && (forall id | id in t0 :: id in t || Gone(log, id))
    && (alone ==>
          && (forall id | id in t :: id in t0 && t[id] == t0[id] && !Gone(log, id))
          && (forall k | 0 <= k < |log| :: log[k].id in t0 && log[k].row == t0[log[k].id]))
  }

  lemma GoneGrows(log: seq<Deleted>, more: seq<Deleted>, id: nat)
    ensures Gone(log + more, id) <==> Gone(log, id) || Gone(more, id)
  {
    if Gone(log, id) {
      var k :| 0 <= k < |log| && log[k].id == id;
      assert (log + more)[k].id == id;
    }
    if Gone(more, id) {
      var k :| 0 <= k < |more| && more[k].id == id;
      assert (log + more)[|log| + k].id == id;
    }
  }

  lemma LoggedIds(t: Table, batch: seq<nat>, at: int, id: nat)
    requires forall x | x in batch :: x in t
    ensures Gone(Logged(t, batch, at), id) <==> id in AsSet(batch)
  {
    if id in AsSet(batch) {
      var k :| 0 <= k < |batch| && batch[k] == id;
      assert Logged(t, batch, at)[k].id == id;
    }
  }

  lemma BatchStep(t0: Table, t: Table, log: seq<Deleted>, alone: bool, configured: nat, last: int, now: int, batch: seq<nat>)
    requires OnlyDeleted(t0, t, log, alone) && AllEligible(log, configured, last) && last <= now
    requires IsLowest(EligibleKeys(t, configured, now), BATCH, batch)
    ensures forall id | id in batch :: id in t
    ensures OnlyDeleted(t0, t - AsSet(batch), log + Logged(t, batch, now), alone)
    ensures AllEligible(log + Logged(t, batch, now), configured, now)
  {
    forall id | id in batch ensures id in t && Eligible(t[id], configured, now) {
      assert id in EligibleKeys(t, configured, now);
    }
    var more := Logged(t, batch, now);
    forall id ensures Gone(log + more, id) <==> Gone(log, id) || id in AsSet(batch) {
      GoneGrows(log, more, id);
      LoggedIds(t, batch, now, id);
    }
    forall k | 0 <= k < |log + more|
      ensures Eligible((log + more)[k].row, configured, (log + more)[k].at) && (log + more)[k].at <= now
      ensures alone ==> (log + more)[k].id in t0 && (log + more)[k].row == t0[(log + more)[k].id]
    {
      if k >= |log| {
        assert batch[k - |log|] in batch;
      }
    }
  }

  lemma OthersStep(t0: Table, t: Table, log: seq<Deleted>, change: Table)
    requires OnlyDeleted(t0, t, log, false)
    ensures OnlyDeleted(t0, t + change, log, false)
  {
  }

  /** Which statements ran: none failed before the last one did, or all succeeded. */
  ghost predicate RanUntil(fails: nat -> bool, statements: nat, failed: bool) {
    (forall k | 0 <= k < statements :: !fails(k)) && (if failed then fails(statements) else statements > 0)
  }

  /** The clock does not go back from one statement to the next. */
  predicate Rising(nows: nat -> int, k: nat) { nows(k) <= nows(k + 1) }

  /** Where the loop stands: what it deleted so far, all of it eligible at or before `now`. */
  ghost predicate Pruned(t0: Table, t: Table, total: nat, log: seq<Deleted>, alone: bool, configured: nat, now: int) {
    && total == |log| && AllEligible(log, configured, now) && OnlyDeleted(t0, t, log, alone)
    && (alone ==> total == |t0| - |t|)
  }

  ghost predicate NoneEligible(t: Table, configured: nat, now: int) {
    forall id | id in t :: !Eligible(t[id], configured, now)
  }

  /** One turn of the loop, when its statement succeeds. */
  method OneBatch(ghost t0: Table, t: Table, ghost total: nat, ghost log: seq<Deleted>, ghost alone: bool, configured: nat, now: int)
    returns (rest: Table, rows: nat, ghost log': seq<Deleted>)
    requires Pruned(t0, t, total, log, alone, configured, now)
    ensures Pruned(t0, rest, total + rows, log', alone, configured, now)
    ensures |rest| == |t| - rows && (rows < BATCH ==> NoneEligible(rest, configured, now))
  {
    rest, rows := DeleteBatch(t, configured, now);
    ghost var batch :| Takes(t, configured, now, batch, rest, rows);
    BatchStep(t0, t, log, alone, configured, now, now, batch);
    Shrinks(t, batch);
    log' := log + Logged(t, batch, now);
    if rows < BATCH {
      ShortBatchTakesAll(t, configured, now, batch);
    }
  }

  /**
   The batch loop over one table: statement n runs at nows(n) and fails if fails(n); `others` are the rows other
   writers insert or change while the loop yields between full batches. `statements` counts those that succeeded.
   */
  method PruneTable(t0: Table, configured: nat, nows: nat -> int, fails: nat -> bool, others: seq<Table>)
    returns (t: Table, total: nat, failed: bool, statements: nat, ghost log: seq<Deleted>)
    requires forall k: nat :: Rising(nows, k)
    ensures RanUntil(fails, statements, failed)
    ensures failed ==> Pruned(t0, t, total, log, others == [], configured, nows(statements))
    ensures !failed ==> Pruned(t0, t, total, log, others == [], configured, nows(statements - 1))
    ensures !failed ==> NoneEligible(t, configured, nows(statements - 1))
    ensures !failed && others == [] ==> t == Kept(t0, configured, nows(statements - 1)) && total == |t0| - |t|
  {
    t, total, failed, statements, log := t0, 0, false, 0, [];
    var k := 0;
    while !fails(statements)
      invariant k <= |others| && forall j | 0 <= j < statements :: !fails(j)
      invariant Pruned(t0, t, total, log, others == [], configured, nows(statements))
      decreases |others| - k, |t|
    {
      var rest, rows;
      rest, rows, log := OneBatch(t0, t, total, log, others == [], configured, nows(statements));
      t, total, statements := rest, total + rows, statements + 1;
      if rows < BATCH {
        PrunedAlone(t0, t, total, log, others == [], configured, nows(statements - 1));
        return;
      }
      assert Rising(nows, statements - 1);
      Later(log, configured, nows(statements - 1), nows(statements));
      if k < |others| {
        OthersStep(t0, t, log, others[k]);
        t, k := t + others[k], k + 1;
      }
    }
    failed := true;
  }

  lemma Later(log: seq<Deleted>, configured: nat, now: int, then': int)
    requires AllEligible(log, configured, now) && now <= then'
    ensures AllEligible(log, configured, then')
  {
  }

  lemma Shrinks(t: Table, batch: seq<nat>)
    requires Distinct(batch) && forall id | id in batch :: id in t
    ensures |t - AsSet(batch)| == |t| - |batch|
  {
    DistinctSize(batch);
    assert (t - AsSet(batch)).Keys == t.Keys - AsSet(batch);
    assert |t.Keys| == |t.Keys - AsSet(batch)| + |AsSet(batch)| by {
      assert t.Keys == (t.Keys - AsSet(batch)) + AsSet(batch);
    }
    assert |(t - AsSet(batch)).Keys| == |t - AsSet(batch)| && |t.Keys| == |t|;
  }

  /** What a table keeps when pruned at one instant. */
  function Kept(t: Table, configured: nat, now: int): Table {
    map id | id in t && !Eligible(t[id], configured, now) :: t[id]
  }

  /** Alone and without a failing statement, exactly the rows expired at the last statement and not held are gone. */
  lemma ExactlyExpired(t0: Table, t: Table, configured: nat, log: seq<Deleted>, last: int)
    requires AllEligible(log, configured, last) && OnlyDeleted(t0, t, log, true)
    requires forall id | id in t :: !Eligible(t[id], configured, last)
    ensures t == Kept(t0, configured, last)
  {
    forall id | id in t0 && id !in t ensures Eligible(t0[id], configured, last) {
      var k :| 0 <= k < |log| && log[k].id == id;
      assert Eligible(log[k].row, configured, log[k].at);
    }
  }

  /** What stays: every protected row, and every row of the last n days, n being the configured number and at least one. */
  lemma KeptIs(t: Table, configured: nat, now: int, id: nat)
    requires id in t
    ensures id in Kept(t, configured, now) <==>
      t[id].held || t[id].time >= now - 86_400 || t[id].time >= now - configured * 86_400
    ensures id in Kept(t, configured, now) ==> Kept(t, configured, now)[id] == t[id]
  {
    if configured >= 1 {
      assert configured * 86_400 >= 86_400;
    }
  }

  /** A row is older, or as old with the lower id. */
  predicate Older(t: Table, x: nat, y: nat)
    requires x in t && y in t
  {
    t[x].time < t[y].time || (t[x].time == t[y].time && x < y)
  }

  /** A statement deletes a row that has to go exactly when fewer than a thousand such rows are older. */
  lemma BatchIs(t: Table, configured: nat, now: int, batch: seq<nat>, rest: Table, affected: nat, id: nat)
    requires Takes(t, configured, now, batch, rest, affected) && id in t
    ensures id !in rest <==>
      && id !in Kept(t, configured, now)
      && |set x | x in t && x !in Kept(t, configured, now) && Older(t, x, id)| < 1000
    ensures id in rest ==> rest[id] == t[id]
  {
    var keys := EligibleKeys(t, configured, now);
    assert id in keys <==> id !in Kept(t, configured, now);
    if id in keys {
      assert Below(keys, id) == set x | x in t && x !in Kept(t, configured, now) && Older(t, x, id);
    }
  }

  lemma PrunedAlone(t0: Table, t: Table, total: nat, log: seq<Deleted>, alone: bool, configured: nat, now: int)
    requires Pruned(t0, t, total, log, alone, configured, now) && NoneEligible(t, configured, now)
    ensures alone ==> t == Kept(t0, configured, now) && total == |t0| - |t|
  {
    if alone { ExactlyExpired(t0, t, configured, log, now); }
  }

  // ---- exporters ----

  /** A flow exporter: when it was created, and its last packet if it ever sent one. */
  datatype Exporter = Exporter(created: int, lastPacket: Option<int>)

  /** Its traffic buckets go with it. */
  datatype Bucket = Bucket(exporter: nat, time: int)

  datatype Flows = Flows(exporters: map<nat, Exporter>, buckets: map<nat, Bucket>)

  /** flow_buckets_days.max(1).saturating_add(1) */
  function IdleDays(configured: nat): nat {
    if Days(configured) >= U32_MAX then U32_MAX else Days(configured) + 1
  }

  function LastSeen(e: Exporter): int {
    if e.lastPacket.Some? then e.lastPacket.value else e.created
  }

  predicate Idle(e: Exporter, configured: nat, now: int) {
    LastSeen(e) < now - IdleDays(configured) * DAY
  }

  /** DELETE FROM flow_exporters, buckets by cascade. */
  function DropIdle(f: Flows, configured: nat, now: int): Flows {
    Flows(
      map e | e in f.exporters && !Idle(f.exporters[e], configured, now) :: f.exporters[e],
      map b | b in f.buckets && !(f.buckets[b].exporter in f.exporters && Idle(f.exporters[f.buckets[b].exporter], configured, now))
        :: f.buckets[b])
  }

  /**
   An exporter goes exactly when it was last heard of, or created if never, more than n + 1 days ago (n as above, up to the
   largest u32); a bucket goes exactly with its exporter.
   */
  lemma DropIs(f: Flows, configured: nat, now: int)
    requires configured < U32_MAX
    ensures
      var left := DropIdle(f, configured, now);
      && (forall e | e in f.exporters ::
            (e in left.exporters <==>
             var seen := match f.exporters[e].lastPacket case Some(t) => t case None => f.exporters[e].created;
             seen >= now - 2 * 86_400 || seen >= now - (configured + 1) * 86_400))
      && (forall e | e in left.exporters :: e in f.exporters && left.exporters[e] == f.exporters[e])
      && (forall b | b in f.buckets ::
            (b in left.buckets <==> f.buckets[b].exporter !in f.exporters || f.buckets[b].exporter in left.exporters))
      && forall b | b in left.buckets :: b in f.buckets && left.buckets[b] == f.buckets[b]
  {
    if configured >= 1 {
      assert (configured + 1) * 86_400 >= 2 * 86_400;
    }
  }

  /** Buckets belong to an exporter and are dated no later than the last packet it sent. */
  ghost predicate Dated(f: Flows) {
    forall b | b in f.buckets ::
      f.buckets[b].exporter in f.exporters && f.buckets[b].time <= LastSeen(f.exporters[f.buckets[b].exporter])
  }

  /** Dropping idle exporters destroys no bucket still inside its window, even if the bucket prune failed. */
  lemma CascadeTakesExpiredOnly(f: Flows, configured: nat, now: int, b: nat)
    requires Dated(f) && configured <= U32_MAX && b in f.buckets && b !in DropIdle(f, configured, now).buckets
    ensures Expired(f.buckets[b].time, configured, now)
  {
  }

  /** With a full day of margin below the largest window: such a bucket was already due a day earlier. */
  lemma CascadeMargin(f: Flows, configured: nat, now: int, b: nat)
    requires Dated(f) && configured < U32_MAX && b in f.buckets && b !in DropIdle(f, configured, now).buckets
    ensures Expired(f.buckets[b].time, configured, now - DAY)
  {
  }

  /** Without that dating rule an idle exporter may take buckets that are still inside the window. */
  lemma MisdatedBucketLost(configured: nat, now: int)
    ensures
      var f := Flows(map[0 := Exporter(now - (IdleDays(configured) + 1) * DAY, None)], map[0 := Bucket(0, now)]);
      0 !in DropIdle(f, configured, now).buckets && !Expired(now, configured, now)
  {
  }
}
