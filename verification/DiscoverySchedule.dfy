/** DiscoverySchedule of backend-rust/src/scheduler.rs, updated in place. */
module DiscoveryClass {
  import opened Ranking
  import opened DiscoveryTables
  import Fair = DiscoveryFairness

  class DiscoverySchedule {
    const anchor: Instant
    var nextDue: map<nat, Instant>
    var queued: set<nat>
    var active: set<nat>
    var backlog: seq<nat>

    function S(): Schedule
      reads this
    {
      Schedule(anchor, nextDue, queued, active, backlog)
    }

    ghost predicate Valid()
      reads this
    {
      Consistent(S())
    }

    constructor (anchor: Instant)
      ensures Valid() && S() == Schedule(anchor, map[], {}, {}, [])
    {
      this.anchor := anchor;
      nextDue, queued, active, backlog := map[], {}, {}, [];
    }

    /** backlog.retain: the enabled entries, order kept. */
    static method RetainOrder(backlog: seq<nat>, enabled: set<nat>) returns (kept: seq<nat>)
      ensures kept == Kept(backlog, enabled)
    {
      kept := [];
      for k := 0 to |backlog|
        invariant kept == Kept(backlog[..k], enabled)
      {
        assert backlog[..k + 1][..k] == backlog[..k];
        if backlog[k] in enabled {
          kept := kept + [backlog[k]];
        }
      }
      assert backlog[..|backlog|] == backlog;
    }

    /** entry(id).or_insert for every enabled device, in whatever order the set is walked. */
    method GiveDeadlines(enabled: set<nat>)
      requires nextDue.Keys <= enabled
      modifies `nextDue
      ensures nextDue == map id | id in enabled :: if id in old(nextDue) then old(nextDue)[id] else anchor + Stagger(id)
    {
      var todo := enabled;
      while todo != {}
        invariant todo <= enabled
        invariant nextDue.Keys == old(nextDue).Keys + (enabled - todo)
        invariant forall id | id in nextDue ::
          nextDue[id] == if id in old(nextDue) then old(nextDue)[id] else anchor + Stagger(id)
        decreases todo
      {
        var id :| id in todo;
        if id !in nextDue {
          nextDue := nextDue[id := anchor + Stagger(id)];
        }
        todo := todo - {id};
      }
    }

    method RetainEnabled(enabled: set<nat>)
      modifies this
      ensures S() == Retained(old(S()), enabled)
    {
      nextDue := map id | id in nextDue && id in enabled :: nextDue[id];
      backlog := RetainOrder(backlog, enabled);
      queued := set id | id in queued && id in enabled;
      assert queued == old(queued) * enabled;
      GiveDeadlines(enabled);
    }

    /** push_back and insert, one by one. */
    method PushAll(ids: seq<nat>)
      modifies `backlog, `queued
      ensures S() == Admit(old(S()), ids)
    {
      for k := 0 to |ids|
        invariant backlog == old(backlog) + ids[..k]
        invariant queued == old(queued) + AsSet(ids[..k])
      {
        assert ids[..k + 1] == ids[..k] + [ids[k]];
        assert AsSet(ids[..k + 1]) == AsSet(ids[..k]) + {ids[k]};
        backlog := backlog + [ids[k]];
        queued := queued + {ids[k]};
      }
      assert ids[..|ids|] == ids;
    }

    /** The second half of reconcile, on a schedule that holds enabled devices only. */
    method Enqueue(now: Instant) returns (deferred: nat, ghost admitted: seq<nat>)
      modifies `backlog, `queued
      ensures IsLowest(DueKeys(old(S()), now), Room(old(S())), admitted)
      ensures S() == Admit(old(S()), admitted)
      ensures deferred == |DueKeys(S(), now)|
    {
      var due := TakeLowest(DueKeys(S(), now), |DueKeys(S(), now)|);
      var available := if |backlog| <= BACKLOG_CAPACITY then BACKLOG_CAPACITY - |backlog| else 0;
      deferred := if |due| > available then |due| - available else 0;
      var take := if |due| < available then |due| else available;
      EnqueueEarliest(S(), now, due, take);
      admitted := due[..take];
      PushAll(due[..take]);
    }

    /** Enqueue the earliest due devices while there is room; report how many stay due. */
    method Reconcile(enabledIds: seq<nat>, now: Instant) returns (deferred: nat, ghost admitted: seq<nat>)
      requires Valid()
      modifies this
      ensures Valid()
      ensures Admits(old(S()), AsSet(enabledIds), now, admitted)
      ensures S() == Reconciled(old(S()), AsSet(enabledIds), admitted)
      ensures deferred == |DueKeys(S(), now)|
    {
      RetainedConsistent(S(), AsSet(enabledIds));
      RetainEnabled(AsSet(enabledIds));
      ghost var kept := S();
      deferred, admitted := Enqueue(now);
      AdmitConsistent(kept, now, admitted);
    }

    /** backlog.pop_front, queued.remove, active.insert; the lookup of the deadline cannot fail. */
    method StartNext() returns (id: nat, deadline: Instant)
      requires Valid() && CanStart(S())
      modifies `backlog, `queued, `active
      ensures S() == StartOne(old(S()))
      ensures id == old(backlog)[0] && id in nextDue && deadline == nextDue[id]
    {
      Fair.HeadLeaves(backlog);
      id := backlog[0];
      backlog := backlog[1..];
      queued := queued - {id};
      active := active + {id};
      deadline := nextDue[id];
    }

    /** Hand out at most the free worker slots, oldest first, each with its own deadline. */
    method StartReady() returns (started: seq<(nat, Instant)>)
      requires Valid()
      modifies `backlog, `queued, `active
      ensures Valid()
      ensures |started| == if CONCURRENCY - |old(active)| <= |old(backlog)| then CONCURRENCY - |old(active)| else |old(backlog)|
      ensures S() == StartMany(old(S()), |started|)
      ensures HandedOut(old(S()), started)
    {
      var slots := CONCURRENCY - |active|;
      started := [];
      StartNone(S());
      while |started| < slots && backlog != []
        invariant |started| <= slots && Handing(old(S()), S(), started)
        decreases slots - |started|
      {
        NextHanded(old(S()), S(), started);
        var id, deadline := StartNext();
        started := started + [(id, deadline)];
      }
      StartManyConsistent(old(S()), |started|);
    }

    /** Step along the grid until the deadline lies in the future. */
    static method Advance(first: Instant, now: Instant) returns (deadline: Instant)
      ensures deadline == NextSlot(first, now)
    {
      deadline := first;
      while deadline <= now
        invariant NextSlot(deadline, now) == NextSlot(first, now)
        decreases now - deadline
      {
        SlotStep(deadline, now);
        deadline := deadline + INTERVAL;
      }
    }

    /** The worker is free again; the deadline moves to the first slot of its grid after now. */
    method Complete(id: nat, now: Instant)
      requires Valid()
      modifies `active, `nextDue
      ensures Valid() && S() == Completed(old(S()), id, now)
    {
      active := active - {id};
      SubsetSize(active, old(active));
      if id in nextDue {
        var deadline := Advance(nextDue[id], now);
        nextDue := nextDue[id := deadline];
      }
    }
  }

  lemma SlotStep(deadline: Instant, now: Instant)
    requires deadline <= now
    ensures NextSlot(deadline + INTERVAL, now) == NextSlot(deadline, now)
  {
  }

  /** Asking for as many rows as there are candidates lists all of them. */
  lemma AllListed(keys: Keyed, due: seq<nat>)
    requires OwnIds(keys) && IsLowest(keys, |keys|, due)
    ensures AsSet(due) == keys.Keys && |due| == |keys|
  {
    forall x | x in keys ensures x in due {
      assert x !in Below(keys, x);
      SubsetSize(Below(keys, x), keys.Keys);
    }
    DistinctSize(due);
  }

  lemma RankIsIndex(keys: Keyed, due: seq<nat>, k: nat)
    requires OwnIds(keys) && IsLowest(keys, |keys|, due) && AsSet(due) == keys.Keys && k < |due|
    ensures due[k] in keys && |Below(keys, due[k])| == k
  {
    assert due[k] in due;
    forall x | x in keys ensures x in Below(keys, due[k]) <==> x in AsSet(due[..k]) {
      var j := Fair.InQueue(due, x);
      Fair.LowestOrder(keys, |keys|, due, j, k);
      Fair.LowestOrder(keys, |keys|, due, k, j);
      if j < k {
        assert due[..k][j] == x;
      }
    }
    assert Below(keys, due[k]) == AsSet(due[..k]);
    DistinctSize(due[..k]);
  }

  /** A prefix of the sorted list of all candidates is the list of the lowest ones. */
  lemma FirstOfAll(keys: Keyed, due: seq<nat>, n: nat)
    requires OwnIds(keys) && IsLowest(keys, |keys|, due) && AsSet(due) == keys.Keys && n <= |due|
    ensures IsLowest(keys, n, due[..n])
  {
    forall x | x in keys && |Below(keys, x)| < n ensures x in due[..n] {
      var j := Fair.InQueue(due, x);
      RankIsIndex(keys, due, j);
      assert due[..n][j] == x;
    }
    forall x | x in due[..n] ensures x in keys && |Below(keys, x)| < n {
      var j :| 0 <= j < n && due[j] == x;
      RankIsIndex(keys, due, j);
    }
  }

  /** With room for all, asking for more rows than there are changes nothing. */
  lemma EnoughRoom(keys: Keyed, due: seq<nat>, available: nat)
    requires OwnIds(keys) && IsLowest(keys, |keys|, due) && AsSet(due) == keys.Keys && |due| == |keys|
    ensures |due| <= available ==> IsLowest(keys, available, due)
  {
    if |due| <= available {
      forall x | x in due ensures x in keys && |Below(keys, x)| < available {
        SubsetSize(Below(keys, x), keys.Keys);
      }
      forall x | x in keys ensures x in due {
        assert x in AsSet(due);
      }
    }
  }

  /** Cutting the sorted list of due devices to the room left admits the earliest and defers the rest. */
  lemma EnqueueEarliest(s: Schedule, now: Instant, due: seq<nat>, take: nat)
    requires IsLowest(DueKeys(s, now), |DueKeys(s, now)|, due)
    requires take == if |due| < Room(s) then |due| else Room(s)
    ensures IsLowest(DueKeys(s, now), Room(s), due[..take])
    ensures |DueKeys(Admit(s, due[..take]), now)| == |due| - take
  {
    var keys := DueKeys(s, now);
    AllListed(keys, due);
    FirstOfAll(keys, due, take);
    EnoughRoom(keys, due, Room(s));
    if take == |due| {
      assert due[..take] == due;
    }
    forall x | x in due[..take] ensures x in keys {
    }
    StillDue(s, keys, now, due[..take]);
  }

  /** The oldest entries of the queue, in order, each with its deadline. */
  ghost predicate HandedOut(s: Schedule, started: seq<(nat, Instant)>) {
    && |started| <= |s.backlog|
    && forall k | 0 <= k < |started| ::
      s.backlog[k] in s.nextDue && started[k] == (s.backlog[k], s.nextDue[s.backlog[k]])
  }

  /** From s0 the entries in `started` have been handed out, and nothing else. */
  ghost predicate Handing(s0: Schedule, s: Schedule, started: seq<(nat, Instant)>) {
    |started| <= |s0.backlog| && s == StartMany(s0, |started|) && HandedOut(s0, started)
  }

  lemma NextHanded(s0: Schedule, s: Schedule, started: seq<(nat, Instant)>)
    requires Consistent(s0) && Handing(s0, s, started) && |started| < CONCURRENCY - |s0.active| && s.backlog != []
    ensures Consistent(s) && CanStart(s) && s.backlog[0] in s.nextDue
    ensures Handing(s0, StartOne(s), started + [(s.backlog[0], s.nextDue[s.backlog[0]])])
  {
    var k := |started|;
    CanStartNext(s0, s, k);
    OneMoreHanded(s0, started, s.nextDue[s0.backlog[k]]);
    StartNextOf(s0, k);
  }

  lemma CanStartNext(s0: Schedule, s: Schedule, k: nat)
    requires Consistent(s0) && k < |s0.backlog| && s == StartMany(s0, k) && k < CONCURRENCY - |s0.active|
    ensures Consistent(s) && CanStart(s) && s.backlog[0] == s0.backlog[k] && s.backlog[0] in s.nextDue
  {
    StartManyConsistent(s0, k);
    StartNextOf(s0, k);
    assert s.backlog[0] in AsSet(s.backlog);
  }

  lemma OneMoreHanded(s: Schedule, started: seq<(nat, Instant)>, deadline: Instant)
    requires HandedOut(s, started) && |started| < |s.backlog|
    requires s.backlog[|started|] in s.nextDue && deadline == s.nextDue[s.backlog[|started|]]
    ensures HandedOut(s, started + [(s.backlog[|started|], deadline)])
  {
  }

  lemma OneStartConsistent(s: Schedule)
    requires Consistent(s) && CanStart(s)
    ensures Consistent(StartOne(s)) && |StartOne(s).active| == |s.active| + 1
  {
    Fair.HeadLeaves(s.backlog);
  }

  lemma {:induction false} StartManyConsistent(s: Schedule, k: nat)
    requires Consistent(s) && k <= |s.backlog| && |s.active| + k <= CONCURRENCY
    ensures Consistent(StartMany(s, k)) && |StartMany(s, k).active| == |s.active| + k
  {
    if k == 0 {
      StartNone(s);
    } else {
      StartManyConsistent(s, k - 1);
      StartNextOf(s, k - 1);
      OneStartConsistent(StartMany(s, k - 1));
    }
  }

  lemma StartNone(s: Schedule)
    ensures StartMany(s, 0) == s
  {
    assert s.backlog[0..] == s.backlog && AsSet(s.backlog[..0]) == {};
  }

  lemma StartNextOf(s: Schedule, k: nat)
    requires k < |s.backlog|
    ensures StartMany(s, k).backlog == s.backlog[k..] && StartMany(s, k + 1) == StartOne(StartMany(s, k))
  {
    assert s.backlog[..k + 1] == s.backlog[..k] + [s.backlog[k]];
    assert AsSet(s.backlog[..k + 1]) == AsSet(s.backlog[..k]) + {s.backlog[k]};
  }

  lemma RetainedConsistent(s: Schedule, enabled: set<nat>)
    requires Consistent(s)
    ensures Consistent(Retained(s, enabled))
  {
    Fair.KeptDistinct(s.backlog, enabled);
  }

  lemma StillDue(kept: Schedule, keys: Keyed, now: Instant, ids: seq<nat>)
    requires keys == DueKeys(kept, now) && Distinct(ids) && AsSet(ids) <= keys.Keys
    ensures |DueKeys(Admit(kept, ids), now)| == |keys| - |ids|
  {
    assert DueKeys(Admit(kept, ids), now).Keys == keys.Keys - AsSet(ids);
    DistinctSize(ids);
  }

  lemma AdmitConsistent(kept: Schedule, now: Instant, ids: seq<nat>)
    requires Consistent(kept) && IsLowest(DueKeys(kept, now), Room(kept), ids)
    ensures Consistent(Admit(kept, ids))
  {
    LowestIsShort(DueKeys(kept, now), Room(kept), ids);
    forall x | x in ids ensures x in kept.nextDue && x !in kept.queued && x !in kept.active {
      assert x in DueKeys(kept, now);
    }
    assert AsSet(kept.backlog + ids) == AsSet(kept.backlog) + AsSet(ids);
    assert Distinct(kept.backlog + ids);
  }
}
