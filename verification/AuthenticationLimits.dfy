/**
 How many wrong guesses an account evaluates. A request reads the lock before it verifies its guess and records the
 failure afterwards, so requests in flight together may pass the check together.
 */
module AuthenticationLimits {
  import opened Options
  import opened Authentication

  datatype Limits = Limits(threshold: nat, minutes: int, concurrent: nat) {
    /** The configuration refuses a zero threshold; the counter and the threshold are u32. */
    predicate Valid() {
      1 <= threshold <= U32_MAX && concurrent >= 1
    }

    function Window(): (w: int)
      ensures w >= 60
    {
      LockSeconds(minutes)
    }
  }

  datatype Guessing = Guessing(a: Account, inFlight: nat, clock: int)

  /** The lock check of a request that will turn out wrong, and the recording of its failure. */
  datatype Event = Check(at: int) | Fail(at: int)

  /** At most `concurrent` guesses of the account are between their check and their record. */
  predicate Can(g: Guessing, e: Event, l: Limits) {
    && e.at >= g.clock
    && (e.Check? ==> Locked(g.a, e.at) || g.inFlight < l.concurrent)
    && (e.Fail? ==> g.inFlight > 0)
  }

  function Do(g: Guessing, e: Event, l: Limits): Guessing
    requires Can(g, e, l)
  {
    match e
    case Check(at) => if Locked(g.a, at) then g.(clock := at) else g.(inFlight := g.inFlight + 1, clock := at)
    case Fail(at) => Guessing(Bumped(g.a, l.threshold, l.minutes, at), g.inFlight - 1, at)
  }

  predicate Runs(g: Guessing, es: seq<Event>, l: Limits)
    decreases |es|
  {
    es == [] || (Can(g, es[0], l) && Runs(Do(g, es[0], l), es[1..], l))
  }

  function After(g: Guessing, es: seq<Event>, l: Limits): Guessing
    requires Runs(g, es, l)
    decreases |es|
  {
    if es == [] then g else After(Do(g, es[0], l), es[1..], l)
  }

  predicate Counts(g: Guessing, e: Event, from: int, until: int) {
    e.Check? && !Locked(g.a, e.at) && from <= e.at <= until
  }

  /** Guesses that get past the lock check in [from, until], and are therefore evaluated. */
  function Evaluated(g: Guessing, es: seq<Event>, l: Limits, from: int, until: int): nat
    requires Runs(g, es, l)
    decreases |es|
  {
    if es == [] then 0
    else
      (if Counts(g, es[0], from, until) then 1 else 0) + Evaluated(Do(g, es[0], l), es[1..], l, from, until)
  }

  /** A lock never reaches further than one window ahead. */
  ghost predicate Sane(g: Guessing, l: Limits) {
    g.inFlight <= l.concurrent && (g.a.lockedUntil.Some? ==> g.a.lockedUntil.value <= g.clock + l.Window())
  }

  lemma SaneKept(g: Guessing, e: Event, l: Limits)
    requires Sane(g, l) && Can(g, e, l)
    ensures Sane(Do(g, e, l), l)
  {
  }

  function Max(a: int, b: int): int { if a < b then b else a }

  /** How many lock windows may still end in [e, until]: at e, one window later, and so on. */
  function Slots(e: int, until: int, w: int): nat
    requires w > 0
    decreases until - e
  {
    if e > until then 0 else 1 + Slots(e + w, until, w)
  }

  /** That is 1 + (until - e) / w, rounded down. */
  lemma {:induction false} SlotsIs(e: int, until: int, w: int)
    requires w > 0 && e <= until
    ensures (Slots(e, until, w) - 1) * w <= until - e < Slots(e, until, w) * w
    decreases until - e
  {
    var n := Slots(e + w, until, w);
    if e + w <= until {
      SlotsIs(e + w, until, w);
      assert n * w == (n - 1) * w + w && (n + 1) * w == n * w + w;
    } else {
      assert n == 0 && (1 - 1) * w == 0;
    }
  }

  lemma {:induction false} LaterSlots(e: int, e': int, until: int, w: int)
    requires w > 0 && e <= e'
    ensures Slots(e', until, w) <= Slots(e, until, w)
    decreases until - e
  {
    if e' <= until {
      LaterSlots(e + w, e' + w, until, w);
    }
  }

  /** Failures that may still be recorded without locking. */
  function Free(g: Guessing, l: Limits): nat {
    if g.a.failures + 1 < l.threshold then l.threshold - 1 - g.a.failures else 0
  }

  function LockEnd(g: Guessing, from: int): int {
    if g.a.lockedUntil.Some? then Max(from, g.a.lockedUntil.value) else from
  }

  /** An upper bound on what a state inside the window can still evaluate. */
  function Room(g: Guessing, l: Limits, from: int, until: int): int {
    var c := l.concurrent;
    if Free(g, l) > 0 then c - g.inFlight + Free(g, l) + c * (Slots(from, until, l.Window()) - 1)
    else if Locked(g.a, g.clock) then c * Slots(LockEnd(g, from), until, l.Window())
    else if LockEnd(g, from) > until then 0
    else c - g.inFlight + c * (Slots(LockEnd(g, from), until, l.Window()) - 1)
  }

  lemma Product(c: nat, m: int, n: int)
    requires m <= n
    ensures c * m <= c * n
  {
  }

  lemma CheckRoom(g: Guessing, e: Event, l: Limits, from: int, until: int)
    requires l.Valid() && Sane(g, l) && Can(g, e, l) && e.Check? && from <= g.clock && from <= until && e.at <= until
    ensures (if Counts(g, e, from, until) then 1 else 0) + Room(Do(g, e, l), l, from, until) <= Room(g, l, from, until)
  {
    var g', w, c := Do(g, e, l), l.Window(), l.concurrent;
    if !Locked(g.a, e.at) && Free(g, l) == 0 && Locked(g.a, g.clock) {
      // The lock ends between the last event and this check: at most `concurrent` guesses fit before the next failure.
      var s := Slots(LockEnd(g, from), until, w);
      assert c * s == c * (s - 1) + c;
    }
  }

  lemma FailRoom(g: Guessing, e: Event, l: Limits, from: int, until: int)
    requires l.Valid() && Sane(g, l) && Can(g, e, l) && e.Fail? && from <= g.clock && from <= until && e.at <= until
    ensures Room(Do(g, e, l), l, from, until) <= Room(g, l, from, until)
  {
    var g', w, c := Do(g, e, l), l.Window(), l.concurrent;
    if Free(g, l) == 0 {
      LaterSlots(LockEnd(g, from), LockEnd(g', from), until, w);
      if Locked(g.a, g.clock) {
        Product(c, Slots(LockEnd(g', from), until, w), Slots(LockEnd(g, from), until, w));
      } else {
        LaterSlots(LockEnd(g, from) + w, LockEnd(g', from), until, w);
        Product(c, Slots(LockEnd(g', from), until, w), Slots(LockEnd(g, from), until, w) - 1);
      }
    }
  }

  lemma {:induction false} NoneLater(g: Guessing, es: seq<Event>, l: Limits, from: int, until: int)
    requires Runs(g, es, l) && g.clock > until
    ensures Evaluated(g, es, l, from, until) == 0
    decreases |es|
  {
    if es != [] {
      NoneLater(Do(g, es[0], l), es[1..], l, from, until);
    }
  }

  lemma RoomIsNat(g: Guessing, l: Limits, from: int, until: int)
    requires l.Valid() && Sane(g, l) && from <= until
    ensures 0 <= Room(g, l, from, until) <= l.threshold - 1 + l.concurrent * Slots(from, until, l.Window())
  {
    var c, w := l.concurrent, l.Window();
    var s, later := Slots(from, until, w), Slots(LockEnd(g, from), until, w);
    LaterSlots(from, LockEnd(g, from), until, w);
    Product(c, later, s);
    Product(c, 0, s - 1);
    assert c * s == c * (s - 1) + c;
    if later > 0 {
      Product(c, 0, later - 1);
      assert c * later == c * (later - 1) + c;
    }
  }

  lemma {:induction false} WithinRoom(g: Guessing, es: seq<Event>, l: Limits, from: int, until: int)
    requires l.Valid() && Sane(g, l) && Runs(g, es, l) && from <= g.clock && from <= until
    ensures Evaluated(g, es, l, from, until) <= Room(g, l, from, until)
    decreases |es|
  {
    RoomIsNat(g, l, from, until);
    if es != [] {
      var g' := Do(g, es[0], l);
      SaneKept(g, es[0], l);
      if es[0].at > until {
        NoneLater(g', es[1..], l, from, until);
      } else {
        WithinRoom(g', es[1..], l, from, until);
        if es[0].Check? { CheckRoom(g, es[0], l, from, until); } else { FailRoom(g, es[0], l, from, until); }
      }
    }
  }

  /**
   With at most c guesses of an account in flight together and no reset, any span of time evaluates at most
   threshold - 1 + c * (1 + span / window) wrong guesses, whatever happened before it.
   */
  lemma {:induction false} GuessesBounded(g: Guessing, es: seq<Event>, l: Limits, from: int, until: int)
    requires l.Valid() && Sane(g, l) && Runs(g, es, l) && from <= until
    ensures Evaluated(g, es, l, from, until) <= l.threshold - 1 + l.concurrent * Slots(from, until, l.Window())
    decreases |es|
  {
    RoomIsNat(g, l, from, until);
    if es != [] {
      SaneKept(g, es[0], l);
      if g.clock >= from {
        WithinRoom(g, es, l, from, until);
      } else if es[0].at < from {
        GuessesBounded(Do(g, es[0], l), es[1..], l, from, until);
      } else {
        var there := g.(clock := from);
        assert Runs(there, es, l) && Do(there, es[0], l) == Do(g, es[0], l);
        WithinRoom(there, es, l, from, until);
        RoomIsNat(there, l, from, until);
      }
    }
  }

  lemma FewerFit(n: int, s: int, w: int, span: int)
    requires n <= s && w > 0 && s * w <= span
    ensures n * w <= span
  {
    assert n * w <= s * w by {
      assert (s - n) * w >= 0;
      assert s * w == n * w + (s - n) * w;
    }
  }

  /** Requests one after the other: at most threshold + span / window. */
  lemma SequentialGuesses(g: Guessing, es: seq<Event>, l: Limits, from: int, until: int)
    requires l.Valid() && l.concurrent == 1 && Sane(g, l) && Runs(g, es, l) && from <= until
    ensures (Evaluated(g, es, l, from, until) - l.threshold) * l.Window() <= until - from
  {
    var s := Slots(from, until, l.Window());
    GuessesBounded(g, es, l, from, until);
    SlotsIs(from, until, l.Window());
    assert l.concurrent * s == s;
    FewerFit(Evaluated(g, es, l, from, until) - l.threshold, s - 1, l.Window(), until - from);
  }

  // ---- the bound is reached ----

  function Checks(at: int, n: nat): seq<Event> { seq(n, k => Check(at)) }

  function Fails(at: int, n: nat): seq<Event> { seq(n, k => Fail(at)) }

  lemma {:induction false} Sequenced(g: Guessing, es: seq<Event>, fs: seq<Event>, l: Limits, from: int, until: int)
    requires Runs(g, es, l) && Runs(After(g, es, l), fs, l)
    ensures Runs(g, es + fs, l) && After(g, es + fs, l) == After(After(g, es, l), fs, l)
    ensures Evaluated(g, es + fs, l, from, until)
         == Evaluated(g, es, l, from, until) + Evaluated(After(g, es, l), fs, l, from, until)
    decreases |es|
  {
    if es == [] {
      assert es + fs == fs;
    } else {
      assert (es + fs)[1..] == es[1..] + fs;
      Sequenced(Do(g, es[0], l), es[1..], fs, l, from, until);
    }
  }

  lemma {:induction false} ChecksPass(g: Guessing, at: int, n: nat, l: Limits, from: int, until: int)
    requires g.clock <= at && !Locked(g.a, at) && g.inFlight + n <= l.concurrent && from <= at <= until
    ensures Runs(g, Checks(at, n), l) && Evaluated(g, Checks(at, n), l, from, until) == n
    ensures After(g, Checks(at, n), l) == g.(inFlight := g.inFlight + n, clock := if n > 0 then at else g.clock)
    decreases n
  {
    if n > 0 {
      assert Checks(at, n)[1..] == Checks(at, n - 1);
      ChecksPass(Do(g, Check(at), l), at, n - 1, l, from, until);
    }
  }

  lemma {:induction false} FailsLock(g: Guessing, at: int, n: nat, l: Limits, from: int, until: int)
    requires l.Valid() && g.clock <= at && n <= g.inFlight && g.a.failures + 1 >= l.threshold
    ensures
      var es := Fails(at, n);
      && Runs(g, es, l) && Evaluated(g, es, l, from, until) == 0
      && After(g, es, l).inFlight == g.inFlight - n && After(g, es, l).a.failures + 1 >= l.threshold
      && (n > 0 ==> After(g, es, l).clock == at && After(g, es, l).a.lockedUntil == Some(at + l.Window()))
    decreases n
  {
    if n > 0 {
      assert Fails(at, n)[1..] == Fails(at, n - 1);
      FailsLock(Do(g, Fail(at), l), at, n - 1, l, from, until);
    }
  }

  function Burst(at: int, n: nat): seq<Event> { Checks(at, n) + Fails(at, n) }

  /** Full bursts at `at` and after each of the next k windows. */
  function Bursts(at: int, w: int, n: nat, k: nat): seq<Event>
    decreases k
  {
    Burst(at, n) + if k == 0 then [] else Bursts(at + w, w, n, k - 1)
  }

  lemma OneBurst(g: Guessing, at: int, l: Limits, from: int, until: int)
    requires l.Valid() && g.inFlight == 0 && g.clock <= at && !Locked(g.a, at) && g.a.failures + 1 >= l.threshold
    requires from <= at <= until
    ensures
      var es := Burst(at, l.concurrent);
      && Runs(g, es, l) && Evaluated(g, es, l, from, until) == l.concurrent
      && After(g, es, l).inFlight == 0 && After(g, es, l).clock == at && After(g, es, l).a.failures + 1 >= l.threshold
      && After(g, es, l).a.lockedUntil == Some(at + l.Window())
  {
    var c := l.concurrent;
    ChecksPass(g, at, c, l, from, until);
    var mid := After(g, Checks(at, c), l);
    FailsLock(mid, at, c, l, from, until);
    Sequenced(g, Checks(at, c), Fails(at, c), l, from, until);
  }

  lemma {:induction false} AllBursts(g: Guessing, at: int, k: nat, l: Limits, from: int, until: int)
    requires l.Valid() && g.inFlight == 0 && g.clock <= at && !Locked(g.a, at) && g.a.failures + 1 >= l.threshold
    requires from <= at && at + k * l.Window() <= until
    ensures
      var es := Bursts(at, l.Window(), l.concurrent, k);
      Runs(g, es, l) && Evaluated(g, es, l, from, until) == l.concurrent * (k + 1)
    decreases k
  {
    var w, c := l.Window(), l.concurrent;
    Product(w, 0, k);
    OneBurst(g, at, l, from, until);
    if k > 0 {
      var g' := After(g, Burst(at, c), l);
      assert k * w == (k - 1) * w + w && c * (k + 1) == c + c * k;
      AllBursts(g', at + w, k - 1, l, from, until);
      Sequenced(g, Burst(at, c), Bursts(at + w, w, c, k - 1), l, from, until);
    } else {
      assert Burst(at, c) + [] == Burst(at, c);
    }
  }

  function Singles(at: int, n: nat): seq<Event>
    decreases n
  {
    if n == 0 then [] else [Check(at), Fail(at)] + Singles(at, n - 1)
  }

  lemma {:induction false} AllSingles(g: Guessing, at: int, n: nat, l: Limits, until: int)
    requires l.Valid() && g.inFlight == 0 && g.clock <= at <= until && g.a.lockedUntil.None?
    requires g.a.failures + n == l.threshold - 1
    ensures
      var es := Singles(at, n);
      && Runs(g, es, l) && Evaluated(g, es, l, at, until) == n
      && After(g, es, l) == Guessing(g.a.(failures := l.threshold - 1), 0, if n > 0 then at else g.clock)
    decreases n
  {
    if n > 0 {
      var es := Singles(at, n);
      var g1 := Do(g, Check(at), l);
      var g2 := Do(g1, Fail(at), l);
      assert es[1..][1..] == Singles(at, n - 1) && es[1..][0] == Fail(at);
      AllSingles(g2, at, n - 1, l, until);
    }
  }

  lemma {:induction false} SlotsExact(e: int, k: nat, w: int)
    requires w > 0
    ensures Slots(e, e + k * w, w) == k + 1
    decreases k
  {
    if k > 0 {
      assert k * w == (k - 1) * w + w && (k - 1) * w >= 0;
      assert e + k * w == (e + w) + (k - 1) * w;
      SlotsExact(e + w, k - 1, w);
    }
  }

  /** From a fresh account the bound of GuessesBounded is met exactly, for every number of windows. */
  lemma BoundReached(a: Account, at: int, k: nat, l: Limits) returns (g: Guessing, es: seq<Event>)
    requires l.Valid() && a.failures == 0 && a.lockedUntil.None?
    ensures g.a == a && Runs(g, es, l)
    ensures Evaluated(g, es, l, at, at + k * l.Window())
         == l.threshold - 1 + l.concurrent * Slots(at, at + k * l.Window(), l.Window())
  {
    SlotsExact(at, k, l.Window());
    var until := at + k * l.Window();
    Product(l.Window(), 0, k);
    g := Guessing(a, 0, at);
    var singles := Singles(at, l.threshold - 1);
    AllSingles(g, at, l.threshold - 1, l, until);
    AllBursts(After(g, singles, l), at, k, l, at, until);
    es := singles + Bursts(at, l.Window(), l.concurrent, k);
    Sequenced(g, singles, Bursts(at, l.Window(), l.concurrent, k), l, at, until);
  }
}
