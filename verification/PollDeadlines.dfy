/**
 The poll loop of one device in backend-rust/src/scheduler.rs: fixed deadlines, late ticks and
 reconfiguration. Instants are nanoseconds.
 */
module PollDeadlines {
  const MILLISECOND := 1_000_000

  type Instant = int

  function Max(a: int, b: int): int { if a < b then b else a }

  /** The shortest and longest wait jittered() allows, in milliseconds. */
  function ShortestMs(base: nat, jitter: nat): int {
    Max(1000, Max(base, 1) * 10 * (100 - (if jitter < 90 then jitter else 90)))
  }

  function LongestMs(base: nat, jitter: nat): int {
    Max(base, 1) * 10 * (100 + (if jitter < 90 then jitter else 90))
  }

  /** advance_deadline */
  function AdvanceDeadline(previous: Instant, now: Instant, period: int): (next: Instant)
    requires period > 0
    ensures next > now
    ensures next >= previous + period
    ensures next == previous + period || next == now + period
  {
    if previous + period <= now then now + period else previous + period
  }

  /** One device loop: its base interval in seconds, its next deadline, and the clock. */
  datatype Loop = Loop(base: nat, jitter: nat, next: Instant, clock: Instant)

  datatype Event =
    | Tick(at: Instant, finished: Instant, periodMs: nat)
    | Reconfigure(at: Instant, interval: nat)

  predicate Can(l: Loop, e: Event) {
    match e
    case Tick(at, finished, ms) =>
      l.clock <= at <= finished && l.next <= at && ShortestMs(l.base, l.jitter) <= ms <= LongestMs(l.base, l.jitter)
    case Reconfigure(at, interval) => l.clock <= at
  }

  function Do(l: Loop, e: Event): Loop
    requires Can(l, e)
  {
    match e
    case Tick(at, finished, ms) => l.(next := AdvanceDeadline(l.next, finished, ms * MILLISECOND), clock := finished)
    case Reconfigure(at, interval) =>
      var base := Max(interval, 5);
      l.(base := base, next := at + base * 1000 * MILLISECOND, clock := at)
  }

  /**
   A tick comes at or after its deadline. The wait for the next is the base interval give or take the jitter, which counts
   up to 90 percent, and at least a second; it runs from the old deadline, or from the end of the tick when that is late. A
   new interval counts from now, and as five seconds at least.
   */
  lemma EventIs(l: Loop, e: Event)
    ensures
      var base, spread := if l.base == 0 then 1 else l.base, if l.jitter <= 90 then l.jitter else 90;
      Can(l, e) <==> l.clock <= e.at && (e.Tick? ==>
        && l.next <= e.at <= e.finished && e.periodMs >= 1000
        && base * 1000 * (100 - spread) <= 100 * e.periodMs <= base * 1000 * (100 + spread))
    ensures Can(l, e) && e.Tick? ==>
      var wait := e.periodMs * 1_000_000;
      Do(l, e) == l.(next := if l.next + wait > e.finished then l.next + wait else e.finished + wait, clock := e.finished)
    ensures Can(l, e) && e.Reconfigure? ==>
      var base := if e.interval < 5 then 5 else e.interval;
      Do(l, e) == l.(base := base, next := e.at + base * 1_000_000_000, clock := e.at)
  {
    var base, spread := if l.base == 0 then 1 else l.base, if l.jitter <= 90 then l.jitter else 90;
    assert base * 1000 * (100 - spread) == 100 * (base * 10 * (100 - spread));
    assert base * 1000 * (100 + spread) == 100 * (base * 10 * (100 + spread));
  }

  predicate Runs(l: Loop, es: seq<Event>)
    decreases |es|
  {
    es == [] || (Can(l, es[0]) && Runs(Do(l, es[0]), es[1..]))
  }

  function After(l: Loop, es: seq<Event>): Loop
    requires Runs(l, es)
    decreases |es|
  {
    if es == [] then l else After(Do(l, es[0]), es[1..])
  }

  /** Polls that begin in [from, from + width). */
  function TicksIn(es: seq<Event>, from: Instant, width: nat): nat
    decreases |es|
  {
    if es == [] then 0
    else (if es[0].Tick? && from <= es[0].at < from + width then 1 else 0) + TicksIn(es[1..], from, width)
  }

  /** No interval in force during the run allows a wait shorter than p. */
  predicate WaitsAtLeast(l: Loop, es: seq<Event>, p: int) {
    && p <= ShortestMs(l.base, l.jitter) * MILLISECOND
    && forall k | 0 <= k < |es| && es[k].Reconfigure? :: p <= ShortestMs(Max(es[k].interval, 5), l.jitter) * MILLISECOND
  }

  lemma WaitsOn(l: Loop, es: seq<Event>, p: int)
    requires es != [] && Can(l, es[0]) && WaitsAtLeast(l, es, p)
    ensures WaitsAtLeast(Do(l, es[0]), es[1..], p)
  {
    forall k | 0 <= k < |es[1..]| && es[1..][k].Reconfigure?
      ensures p <= ShortestMs(Max(es[1..][k].interval, 5), l.jitter) * MILLISECOND
    {
      assert es[1..][k] == es[k + 1];
    }
  }

  lemma BaseCoversShortest(base: nat, jitter: nat)
    requires base >= 5
    ensures base * 1000 >= ShortestMs(base, jitter)
  {
  }

  /** Each event leaves the next deadline after the clock's last tick and at least p after the one before. */
  lemma DeadlinesSpread(l: Loop, e: Event, p: int)
    requires Can(l, e) && p > 0 && WaitsAtLeast(l, [e], p)
    ensures e.Tick? ==> Do(l, e).next > e.finished && Do(l, e).next >= l.next + p
    ensures e.Reconfigure? ==> Do(l, e).next >= e.at + p
  {
    assert [e][0] == e;
    if e.Reconfigure? {
      BaseCoversShortest(Max(e.interval, 5), l.jitter);
    } else {
      assert ShortestMs(l.base, l.jitter) * MILLISECOND <= e.periodMs * MILLISECOND;
    }
  }

  /** The earliest instant the next tick can fall on, reconfigured or not. */
  function Earliest(l: Loop, p: int): Instant {
    if l.next < l.clock + p then l.next else l.clock + p
  }

  lemma EarliestMoves(l: Loop, e: Event, p: int)
    requires Can(l, e) && p > 0 && WaitsAtLeast(l, [e], p)
    ensures Earliest(Do(l, e), p) >= Earliest(l, p)
    ensures e.Tick? ==> e.at >= Earliest(l, p) && Earliest(Do(l, e), p) >= Earliest(l, p) + p && Earliest(Do(l, e), p) > e.at
  {
    DeadlinesSpread(l, e, p);
  }

  /** n ticks at least p apart fit before the end of a window of which `room` is left. */
  predicate Fit(n: nat, room: int, p: int) { n == 0 || (n - 1) * p < room }

  lemma OneMore(n: nat, room: int, p: int)
    requires p > 0 && room > 0 && Fit(n, room - p, p)
    ensures Fit(n + 1, room, p)
  {
    if n > 0 {
      assert n * p == (n - 1) * p + p;
    }
  }

  /** Once the clock is inside the window, the ticks left in it are at least p apart. */
  lemma {:induction false} TicksLeft(l: Loop, es: seq<Event>, from: Instant, width: nat, p: int)
    requires Runs(l, es) && p > 0 && WaitsAtLeast(l, es, p) && from <= l.clock
    ensures Fit(TicksIn(es, from, width), from + width - Earliest(l, p), p)
    decreases |es|
  {
    if es != [] {
      var l', rest := Do(l, es[0]), es[1..];
      WaitsOn(l, es, p);
      TicksLeft(l', rest, from, width, p);
      EarliestMoves(l, es[0], p) by { assert WaitsAtLeast(l, [es[0]], p) by { assert [es[0]][0] == es[0]; } }
      var n, room, room' := TicksIn(rest, from, width), from + width - Earliest(l, p), from + width - Earliest(l', p);
      if es[0].Tick? && es[0].at < from + width {
        assert Fit(n, room - p, p);
        OneMore(n, room, p);
      }
    }
  }

  /**
   Whatever the lateness of the ticks, the jitter and the reconfigurations, every window of the clock
   holds at most (width - 2) / p + 2 polls, p being the shortest wait in force.
   */
  lemma {:induction false} PollRate(l: Loop, es: seq<Event>, from: Instant, width: nat, p: int)
    requires Runs(l, es) && p > 0 && WaitsAtLeast(l, es, p)
    ensures TicksIn(es, from, width) <= 1 || (TicksIn(es, from, width) - 2) * p <= width - 2
    decreases |es|
  {
    if es != [] {
      var l', rest := Do(l, es[0]), es[1..];
      WaitsOn(l, es, p);
      if es[0].Tick? && from <= es[0].at < from + width {
        TicksLeft(l', rest, from, width, p);
        EarliestMoves(l, es[0], p) by { assert WaitsAtLeast(l, [es[0]], p) by { assert [es[0]][0] == es[0]; } }
      } else {
        PollRate(l', rest, from, width, p);
      }
    }
  }

  /** With the floor jittered() puts under every wait, no more than one poll a second plus two. */
  lemma AtMostOncePerSecond(l: Loop, es: seq<Event>, from: Instant, seconds: nat)
    requires Runs(l, es)
    ensures TicksIn(es, from, seconds * 1000 * MILLISECOND) <= seconds + 2
  {
    var p, n := 1000 * MILLISECOND, TicksIn(es, from, seconds * 1000 * MILLISECOND);
    PollRate(l, es, from, seconds * 1000 * MILLISECOND, p);
  }

  /** k ticks, each exactly on its deadline. */
  function OnTime(first: Instant, ms: nat, k: nat): seq<Event>
    decreases k
  {
    if k == 0 then [] else [Tick(first, first, ms)] + OnTime(first + ms * MILLISECOND, ms, k - 1)
  }

  lemma {:induction false} OnTimeRuns(l: Loop, ms: nat, p: int, k: nat, from: Instant, width: nat)
    requires p == ms * MILLISECOND && l.clock <= l.next && ShortestMs(l.base, l.jitter) <= ms <= LongestMs(l.base, l.jitter)
    requires from <= l.next && (k > 0 ==> l.next + (k - 1) * p < from + width)
    decreases k
    ensures
      var es := OnTime(l.next, ms, k);
      && Runs(l, es) && TicksIn(es, from, width) == k
      && (forall j | 0 <= j < |es| :: es[j].Tick?)
      && After(l, es).next == l.next + k * p
  {
    if k > 0 {
      var es := OnTime(l.next, ms, k);
      var l' := Do(l, es[0]);
      assert es[1..] == OnTime(l.next + p, ms, k - 1) && l'.next == l.next + p;
      assert (k - 1) * p == (k - 2) * p + p && k * p == (k - 1) * p + p;
      OnTimeRuns(l', ms, p, k - 1, from, width);
    }
  }

  /** A tick almost one period late, then k on time: a window of span + 2 meets the bound of PollRate exactly. */
  lemma RateIsReached(l: Loop, ms: nat, p: int, k: nat, span: nat) returns (es: seq<Event>)
    requires l.clock == l.next && ms == ShortestMs(l.base, l.jitter) && p == ms * MILLISECOND && k > 0
    requires span == (k - 1) * p
    ensures Runs(l, es) && WaitsAtLeast(l, es, p)
    ensures TicksIn(es, l.next + p - 1, span + 2) == k + 1
  {
    var late := Tick(l.next + p - 1, l.next + p - 1, ms);
    LateTick(l, ms, p);
    OnTimeRuns(Do(l, late), ms, p, k, late.at, span + 2);
    Prepend(l, late, OnTime(l.next + p, ms, k), late.at, span + 2);
    es := [late] + OnTime(l.next + p, ms, k);
  }

  lemma LateTick(l: Loop, ms: nat, p: int)
    requires l.clock == l.next && ms == ShortestMs(l.base, l.jitter) && p == ms * MILLISECOND
    ensures
      var at := l.next + p - 1;
      Can(l, Tick(at, at, ms)) && Do(l, Tick(at, at, ms)) == l.(next := l.next + p, clock := at)
  {
  }

  lemma Prepend(l: Loop, e: Event, es: seq<Event>, from: Instant, width: nat)
    requires Can(l, e) && Runs(Do(l, e), es)
    ensures Runs(l, [e] + es)
    ensures TicksIn([e] + es, from, width) == TicksIn([e], from, width) + TicksIn(es, from, width)
  {
    assert ([e] + es)[1..] == es && [e][1..] == [];
  }

  /** No drift: ticks that end before their next deadline leave the deadlines on the grid, however late each ran. */
  lemma {:induction false} NoDrift(l: Loop, es: seq<Event>, ms: nat)
    requires Runs(l, es) && ms > 0
    requires forall k | 0 <= k < |es| ::
      es[k].Tick? && es[k].periodMs == ms && es[k].finished < l.next + (k + 1) * (ms * MILLISECOND)
    ensures After(l, es).next == l.next + |es| * (ms * MILLISECOND)
    decreases |es|
  {
    var p := ms * MILLISECOND;
    if es != [] {
      var l' := Do(l, es[0]);
      assert es[0].finished < l.next + (0 + 1) * p;
      assert l'.next == l.next + p;
      forall k | 0 <= k < |es[1..]|
        ensures es[1..][k].Tick? && es[1..][k].periodMs == ms && es[1..][k].finished < l'.next + (k + 1) * p
      {
        assert es[1..][k] == es[k + 1];
        assert (k + 1 + 1) * p == (k + 1) * p + p;
      }
      NoDrift(l', es[1..], ms);
      assert |es| * p == (|es| - 1) * p + p;
    }
  }
}
