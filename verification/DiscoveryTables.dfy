/**
 The discovery schedule of backend-rust/src/scheduler.rs as values: its state, and what each of its
 three operations does to it. Instants are nanoseconds.
 */
module DiscoveryTables {
  import opened Ranking

  const SECOND := 1_000_000_000
  const INTERVAL := 3600 * SECOND
  const JITTER_SECONDS := 300
  const CONCURRENCY := 2
  const BACKLOG_CAPACITY := 256
  const U64_VALUES := 0x1_0000_0000_0000_0000

  type Instant = int

  /** stable_discovery_stagger: wrapping u64 multiplication, then 0 to 300 seconds. */
  function Stagger(device: nat): (r: nat)
    ensures r <= JITTER_SECONDS * SECOND
  {
    (device * 2_654_435_761 % U64_VALUES) % (JITTER_SECONDS + 1) * SECOND
  }

  /** The product has not wrapped. */
  predicate Small(device: nat) { device * 2_654_435_761 < 0x1_0000_0000_0000_0000 }

  lemma ModuloUnique(x: int, y: int, q: int)
    requires x == y + 301 * q
    ensures x % 301 == y % 301
  {
    assert x - 301 * (y / 301 + q) == y % 301;
  }

  /** The factor has the inverse 24 modulo 301, so a stagger of s whole seconds belongs to one residue of the device ids. */
  lemma StaggerOf(device: nat, s: nat)
    requires Small(device) && s <= 300
    ensures Stagger(device) == s * SECOND <==> device % 301 == 24 * s % 301
  {
    var x := device * 2_654_435_761;
    assert Stagger(device) == x % 301 * SECOND;
    if x % 301 == s {
      ModuloUnique(24 * x, device, 211649363 * device);
      ModuloUnique(24 * x, 24 * s, 24 * (x / 301));
    }
    if device % 301 == 24 * s % 301 {
      var q := device / 301 - 24 * s / 301;
      assert device == 24 * s + 301 * q;
      ModuloUnique(x, s, 2_654_435_761 * q + 211649363 * s);
    }
  }

  /** Devices share a slot exactly when their ids agree modulo 301: any 301 ids in a row are spread over all of the window. */
  lemma StaggersShared(a: nat, b: nat)
    requires Small(a) && Small(b)
    ensures Stagger(a) == Stagger(b) <==> a % 301 == b % 301
  {
    var s := Stagger(a) / SECOND;
    assert Stagger(a) == s * SECOND && s <= 300;
    StaggerOf(a, s);
    StaggerOf(b, s);
  }

  datatype Schedule = Schedule(
    anchor: Instant,
    nextDue: map<nat, Instant>,
    queued: set<nat>,
    active: set<nat>,
    backlog: seq<nat>
  )

  /** The elements of s that are enabled, in order. */
  function Kept(s: seq<nat>, enabled: set<nat>): (r: seq<nat>)
    ensures |r| <= |s|
    ensures forall x :: x in r <==> x in s && x in enabled
  {
    if s == [] then []
    else
      var rest := Kept(s[..|s| - 1], enabled);
      if s[|s| - 1] in enabled then rest + [s[|s| - 1]] else rest
  }

  /** The first half of reconcile: disabled devices forgotten, new ones given their first deadline. */
  function Retained(s: Schedule, enabled: set<nat>): Schedule {
    s.(
      nextDue := map id | id in enabled :: if id in s.nextDue then s.nextDue[id] else s.anchor + Stagger(id),
      backlog := Kept(s.backlog, enabled),
      queued := s.queued * enabled
    )
  }

  /** Devices that are due and neither queued nor active, keyed by (deadline, id). */
  function DueKeys(s: Schedule, now: Instant): Keyed {
    map id | id in s.nextDue && s.nextDue[id] <= now && id !in s.queued && id !in s.active
      :: Key(s.nextDue[id], 0, id)
  }

  function Room(s: Schedule): nat {
    if |s.backlog| <= BACKLOG_CAPACITY then BACKLOG_CAPACITY - |s.backlog| else 0
  }

  function Admit(s: Schedule, ids: seq<nat>): Schedule {
    s.(backlog := s.backlog + ids, queued := s.queued + AsSet(ids))
  }

  /** reconcile admits exactly the `Room` earliest due devices. */
  ghost predicate Admits(s: Schedule, enabled: set<nat>, now: Instant, ids: seq<nat>) {
    var kept := Retained(s, enabled);
    IsLowest(DueKeys(kept, now), Room(kept), ids)
  }

  function Reconciled(s: Schedule, enabled: set<nat>, ids: seq<nat>): Schedule {
    Admit(Retained(s, enabled), ids)
  }

  predicate CanStart(s: Schedule) { |s.active| < CONCURRENCY && s.backlog != [] }

  function StartOne(s: Schedule): Schedule
    requires s.backlog != []
  {
    s.(backlog := s.backlog[1..], queued := s.queued - {s.backlog[0]}, active := s.active + {s.backlog[0]})
  }

  /** The k oldest entries of the queue move to the workers. */
  function StartMany(s: Schedule, k: nat): Schedule
    requires k <= |s.backlog|
  {
    s.(backlog := s.backlog[k..], queued := s.queued - AsSet(s.backlog[..k]), active := s.active + AsSet(s.backlog[..k]))
  }

  /** The first slot of the hourly grid after now. */
  function NextSlot(deadline: Instant, now: Instant): (r: Instant)
    ensures r > now && (r - deadline) % INTERVAL == 0
    ensures if deadline > now then r == deadline else r <= now + INTERVAL
  {
    if deadline > now then deadline else deadline + ((now - deadline) / INTERVAL + 1) * INTERVAL
  }

  function Completed(s: Schedule, id: nat, now: Instant): Schedule {
    var done := s.(active := s.active - {id});
    if id in s.nextDue then done.(nextDue := s.nextDue[id := NextSlot(s.nextDue[id], now)]) else done
  }

  /** Between calls: queue and set agree, nothing is both queued and active, every queued device has a deadline. */
  ghost predicate Consistent(s: Schedule) {
    && Distinct(s.backlog) && AsSet(s.backlog) == s.queued
    && s.queued !! s.active
    && s.queued <= s.nextDue.Keys
    && |s.backlog| <= BACKLOG_CAPACITY && |s.active| <= CONCURRENCY
  }
}
