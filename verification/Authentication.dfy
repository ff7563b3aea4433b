/**
 The per-account authentication state of backend-rust/src/auth/mod.rs: the failure counter and lock, the last
 TOTP step, and the recovery codes. Instants are seconds; password, TOTP and recovery failures share one counter.
 */
module Authentication {
  import opened Options

  const U32_MAX := 0xFFFF_FFFF

  datatype Account = Account(failures: nat, lockedUntil: Option<int>, lastStep: Option<nat>, codes: seq<string>)

  datatype TotpConsume = Accepted | WrongCode | ReplayedStep

  /** Some(until) with until > now. */
  predicate Locked(a: Account, now: int) {
    a.lockedUntil.Some? && a.lockedUntil.value > now
  }

  function LockSeconds(minutes: int): int {
    (if minutes > 1 then minutes else 1) * 60
  }

  /** What one recorded failure leaves behind: below the threshold it also clears an old lock. */
  function Bumped(a: Account, threshold: nat, minutes: int, now: int): Account {
    var next := if a.failures < U32_MAX then a.failures + 1 else U32_MAX;
    a.(failures := next, lockedUntil := if next >= threshold then Some(now + LockSeconds(minutes)) else None)
  }

  function Reset(a: Account): Account {
    a.(failures := 0, lockedUntil := None)
  }

  function Consumed(a: Account, step: Option<nat>): (Account, TotpConsume) {
    if step.None? then (a, WrongCode)
    else if a.lastStep.Some? && step.value <= a.lastStep.value then (a, ReplayedStep)
    else (a.(lastStep := step), Accepted)
  }

  /** The first stored hash the code verifies against. */
  function FirstMatch(code: string, codes: seq<string>, verify: (string, string) -> bool): Option<nat> {
    if codes == [] then None
    else
      var front := FirstMatch(code, codes[..|codes| - 1], verify);
      if front.Some? then front else if verify(code, codes[|codes| - 1]) then Some(|codes| - 1) else None
  }

  function Spend(a: Account, code: string, verify: (string, string) -> bool): (r: (Account, bool)) {
    var m := FirstMatch(code, a.codes, verify);
    if m.None? || m.value >= |a.codes| then (a, false)
    else (a.(codes := a.codes[..m.value] + a.codes[m.value + 1..]), true)
  }

  /** The users row, updated in place; each method is one transaction on the locked row. */
  class UserRow {
    var failedLoginAttempts: nat
    var lockedUntil: Option<int>
    var lastTotpStep: Option<nat>
    var recoveryCodes: seq<string>

    function S(): Account
      reads this
    {
      Account(failedLoginAttempts, lockedUntil, lastTotpStep, recoveryCodes)
    }

    constructor (a: Account)
      ensures S() == a
    {
      failedLoginAttempts, lockedUntil, lastTotpStep, recoveryCodes := a.failures, a.lockedUntil, a.lastStep, a.codes;
    }

    /** bump_failure_and_maybe_lock; the result is the edge that raises the alert. */
    method BumpFailureAndMaybeLock(threshold: nat, minutes: int, now: int) returns (newlyLocked: bool)
      modifies `failedLoginAttempts, `lockedUntil
      ensures S() == Bumped(old(S()), threshold, minutes, now)
      ensures newlyLocked <==> Locked(S(), now) && !old(Locked(S(), now))
    {
      var next := if failedLoginAttempts < U32_MAX then failedLoginAttempts + 1 else U32_MAX;
      var wasLocked := lockedUntil.Some? && lockedUntil.value > now;
      failedLoginAttempts := next;
      lockedUntil := if next >= threshold then Some(now + LockSeconds(minutes)) else None;
      newlyLocked := lockedUntil.Some? && !wasLocked;
    }

    /** consume_totp_step; `step` is the time step the code matched, if any. */
    method ConsumeTotpStep(step: Option<nat>) returns (outcome: TotpConsume)
      modifies `lastTotpStep
      ensures (S(), outcome) == Consumed(old(S()), step)
    {
      if step.None? { return WrongCode; }
      if lastTotpStep.Some? && step.value <= lastTotpStep.value { return ReplayedStep; }
      lastTotpStep := step;
      return Accepted;
    }

    /** consume_recovery_code: find the first matching hash, remove it, write the list back. */
    method ConsumeRecoveryCode(code: string, verify: (string, string) -> bool) returns (ok: bool)
      modifies `recoveryCodes
      ensures (S(), ok) == Spend(old(S()), code, verify)
    {
      var matched: Option<nat> := None;
      var i := 0;
      while i < |recoveryCodes| && matched.None?
        invariant i <= |recoveryCodes| && recoveryCodes == old(recoveryCodes)
        invariant matched == FirstMatch(code, recoveryCodes[..i], verify)
        invariant matched.Some? ==> matched.value < i
      {
        assert recoveryCodes[..i + 1][..i] == recoveryCodes[..i];
        if verify(code, recoveryCodes[i]) { matched := Some(i); }
        i := i + 1;
      }
      FirstMatchStays(code, recoveryCodes, i, verify);
      if matched.None? { return false; }
      recoveryCodes := recoveryCodes[..matched.value] + recoveryCodes[matched.value + 1..];
      return true;
    }
  }

  lemma {:induction false} FirstMatchStays(code: string, codes: seq<string>, n: nat, verify: (string, string) -> bool)
    requires n <= |codes|
    ensures FirstMatch(code, codes[..n], verify).Some? || n == |codes| ==>
      FirstMatch(code, codes, verify) == FirstMatch(code, codes[..n], verify)
  {
    if n < |codes| {
      FirstMatchStays(code, codes[..|codes| - 1], n, verify);
      assert codes[..|codes| - 1][..n] == codes[..n];
    } else {
      assert codes[..n] == codes;
    }
  }

  // ---- recovery codes ----

  lemma {:induction false} FirstMatchIs(code: string, codes: seq<string>, verify: (string, string) -> bool)
    ensures
      var m := FirstMatch(code, codes, verify);
      && (m.Some? ==> m.value < |codes| && verify(code, codes[m.value]) && forall k | 0 <= k < m.value :: !verify(code, codes[k]))
      && (m.None? ==> forall k | 0 <= k < |codes| :: !verify(code, codes[k]))
  {
    if codes != [] {
      FirstMatchIs(code, codes[..|codes| - 1], verify);
    }
  }

  /** A successful recovery removes exactly one hash, one the code verifies against. */
  lemma SpendRemovesOne(a: Account, code: string, verify: (string, string) -> bool)
    ensures
      var (a', ok) := Spend(a, code, verify);
      && (ok <==> exists k | 0 <= k < |a.codes| :: verify(code, a.codes[k]))
      && a' == a.(codes := a'.codes)
      && (if ok then |a'.codes| == |a.codes| - 1
            && exists h | h in a.codes :: verify(code, h) && multiset(a'.codes) == multiset(a.codes) - multiset{h}
          else a'.codes == a.codes)
  {
    FirstMatchIs(code, a.codes, verify);
    var m := FirstMatch(code, a.codes, verify);
    if m.Some? {
      var h := a.codes[m.value];
      assert a.codes == a.codes[..m.value] + [h] + a.codes[m.value + 1..];
      assert multiset(a.codes[..m.value] + a.codes[m.value + 1..]) == multiset(a.codes) - multiset{h};
    }
  }

  function Recoveries(a: Account, tries: seq<string>, verify: (string, string) -> bool): nat
    decreases |tries|
  {
    if tries == [] then 0
    else
      var (a', ok) := Spend(a, tries[0], verify);
      (if ok then 1 else 0) + Recoveries(a', tries[1..], verify)
  }

  /** Stored hashes this code could spend. */
  function Matching(codes: seq<string>, code: string, verify: (string, string) -> bool): nat {
    if codes == [] then 0
    else Matching(codes[..|codes| - 1], code, verify) + if verify(code, codes[|codes| - 1]) then 1 else 0
  }

  /** n issued codes allow at most n recoveries, whatever is tried in whatever order. */
  lemma {:induction false} RecoveriesBounded(a: Account, tries: seq<string>, verify: (string, string) -> bool)
    ensures Recoveries(a, tries, verify) <= |a.codes|
    decreases |tries|
  {
    if tries == [] {
    } else {
      SpendRemovesOne(a, tries[0], verify);
      RecoveriesBounded(Spend(a, tries[0], verify).0, tries[1..], verify);
    }
  }

  lemma {:induction false} MatchingSplits(codes: seq<string>, k: nat, code: string, verify: (string, string) -> bool)
    requires k < |codes|
    ensures Matching(codes, code, verify)
         == Matching(codes[..k] + codes[k + 1..], code, verify) + if verify(code, codes[k]) then 1 else 0
  {
    var n := |codes| - 1;
    if k < n {
      MatchingSplits(codes[..n], k, code, verify);
      assert codes[..n][..k] == codes[..k];
      var cut := codes[..k] + codes[k + 1..];
      assert cut[..|cut| - 1] == codes[..n][..k] + codes[..n][k + 1..];
    } else {
      assert codes[..k] + codes[k + 1..] == codes[..n];
    }
  }

  /** One code, tried any number of times among others, succeeds no more often than hashes match it. */
  lemma {:induction false} OneCodeBounded(a: Account, code: string, times: nat, verify: (string, string) -> bool)
    ensures Recoveries(a, Repeat(code, times), verify) <= Matching(a.codes, code, verify)
    decreases times
  {
    if times > 0 {
      var tries := Repeat(code, times);
      FirstMatchIs(code, a.codes, verify);
      var m := FirstMatch(code, a.codes, verify);
      if m.Some? { MatchingSplits(a.codes, m.value, code, verify); }
      OneCodeBounded(Spend(a, code, verify).0, code, times - 1, verify);
      assert tries[1..] == Repeat(code, times - 1);
    }
  }

  function Repeat(code: string, times: nat): seq<string> {
    if times == 0 then [] else [code] + Repeat(code, times - 1)
  }

  // ---- TOTP steps ----

  function AcceptedSteps(a: Account, steps: seq<Option<nat>>): seq<nat>
    decreases |steps|
  {
    if steps == [] then []
    else
      var (a', outcome) := Consumed(a, steps[0]);
      (if outcome == Accepted then [steps[0].value] else []) + AcceptedSteps(a', steps[1..])
  }

  /** Every step comes after `last`, and after all steps before it. */
  ghost predicate Increasing(s: seq<nat>, last: Option<nat>) {
    && (last.Some? ==> forall k | 0 <= k < |s| :: s[k] > last.value)
    && (forall j, k | 0 <= j < k < |s| :: s[j] < s[k])
  }

  /** Between resets, whatever the order requests reach the row in, each accepted step is later than all before it. */
  lemma {:induction false} StepsIncrease(a: Account, steps: seq<Option<nat>>)
    ensures Increasing(AcceptedSteps(a, steps), a.lastStep)
    decreases |steps|
  {
    if steps == [] {
    } else {
      var (a', outcome) := Consumed(a, steps[0]);
      var rest := AcceptedSteps(a', steps[1..]);
      StepsIncrease(a', steps[1..]);
      if outcome == Accepted {
        IncreasingFrom(steps[0].value, rest, a.lastStep);
      }
    }
  }

  lemma IncreasingFrom(step: nat, rest: seq<nat>, last: Option<nat>)
    requires Increasing(rest, Some(step)) && (last.Some? ==> step > last.value)
    ensures Increasing([step] + rest, last)
  {
    var s := [step] + rest;
    assert forall k | 1 <= k < |s| :: s[k] == rest[k - 1];
  }

  /** The row after the steps, one request at a time. */
  function RowAfter(a: Account, steps: seq<Option<nat>>): Account {
    if steps == [] then a else Consumed(RowAfter(a, steps[..|steps| - 1]), steps[|steps| - 1]).0
  }

  /** The step matched, and comes after the one stored at first and after every step matched before it. */
  ghost predicate IsNew(a: Account, earlier: seq<Option<nat>>, step: Option<nat>) {
    && step.Some? && (a.lastStep.Some? ==> step.value > a.lastStep.value)
    && forall j | 0 <= j < |earlier| && earlier[j].Some? :: step.value > earlier[j].value
  }

  /** The row keeps the latest of the first stored step and the steps matched since, and nothing else moves. */
  lemma {:induction false} LatestKept(a: Account, steps: seq<Option<nat>>)
    ensures RowAfter(a, steps) == a.(lastStep := RowAfter(a, steps).lastStep)
    ensures
      var last := RowAfter(a, steps).lastStep;
      && (last == a.lastStep || exists j | 0 <= j < |steps| :: steps[j].Some? && steps[j] == last)
      && (a.lastStep.Some? ==> last.Some? && last.value >= a.lastStep.value)
      && forall j | 0 <= j < |steps| && steps[j].Some? :: last.Some? && last.value >= steps[j].value
  {
    if steps != [] {
      LatestKept(a, steps[..|steps| - 1]);
    }
  }

  /**
   In any sequence of requests the k-th is accepted exactly when its step is new; a matched step that is not is called a
   replay. An accepted step is stored; a refused request changes nothing.
   */
  lemma AcceptedIffNew(a: Account, steps: seq<Option<nat>>, k: nat)
    requires k < |steps|
    ensures
      var before, (after, outcome) := RowAfter(a, steps[..k]), Consumed(RowAfter(a, steps[..k]), steps[k]);
      && (outcome == Accepted <==> IsNew(a, steps[..k], steps[k]))
      && (outcome == ReplayedStep <==> steps[k].Some? && !IsNew(a, steps[..k], steps[k]))
      && after == (if outcome == Accepted then before.(lastStep := steps[k]) else before)
  {
    LatestKept(a, steps[..k]);
  }

  // ---- failures in a row ----

  /** The row after failures at these instants with no success between them. */
  function Failed(a: Account, times: seq<int>, threshold: nat, minutes: int): Account {
    if times == [] then a
    else Bumped(Failed(a, times[..|times| - 1], threshold, minutes), threshold, minutes, times[|times| - 1])
  }

  /**
   Failures are counted up to the largest count stored, and the account is locked after the last of them exactly when
   they have reached the threshold: from then on for the configured minutes, and at least one.
   */
  lemma {:induction false} LockedIffReached(a: Account, times: seq<int>, threshold: nat, minutes: int, now: int)
    requires times != [] && a.failures <= U32_MAX && now >= times[|times| - 1]
    ensures
      var f, n := Failed(a, times, threshold, minutes), a.failures + |times|;
      && f.lastStep == a.lastStep && f.codes == a.codes
      && f.failures == (if n <= 0xFFFF_FFFF then n else 0xFFFF_FFFF)
      && (f.lockedUntil.Some? && f.lockedUntil.value > now <==>
            f.failures >= threshold && (now < times[|times| - 1] + 60 || now < times[|times| - 1] + minutes * 60))
  {
    if |times| > 1 {
      LockedIffReached(a, times[..|times| - 1], threshold, minutes, times[|times| - 2]);
    }
  }
}
