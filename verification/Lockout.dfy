/// PIN lockouts: the schedule of locks, and how slowly it makes anybody guess.  Times are whole seconds.
module Lockout {
  import opened Wrappers

  const MINUTE := 60
  const FAILURES_BEFORE_LOCK := 5
  const FIRST_LOCKOUT := 15 * MINUTE
  const MAX_LOCKOUT := 60 * MINUTE
  const MAX_DOUBLINGS := 8

  function Doubled(n: nat): nat { if n == 0 then 1 else 2 * Doubled(n - 1) }

  function Min(a: int, b: int): int { if a <= b then a else b }

  /** Past the cap the exponent stops growing, so no power is taken that the cap would throw away. */
  function LockoutAfter(failures: nat): Option<int> {
    if failures < FAILURES_BEFORE_LOCK then None
    else
      var batch := failures / FAILURES_BEFORE_LOCK;
      Some(Min(FIRST_LOCKOUT * Doubled(Min(batch - 1, MAX_DOUBLINGS)), MAX_LOCKOUT))
  }

  /** One person as this terminal caches them. */
  datatype Account = Account(failures: nat, lockedUntil: Option<int>)

  const UNBLEMISHED := Account(0, None)

  predicate IsLocked(a: Account, now: int) {
    a.lockedUntil.Some? && now < a.lockedUntil.value
  }

  function LockedUntil(failures: nat, now: int): Option<int> {
    match LockoutAfter(failures)
    case None => None
    case Some(window) => Some(now + window)
  }

  function Recorded(a: Account, now: int): Account {
    Account(a.failures + 1, LockedUntil(a.failures + 1, now))
  }

  datatype Verdict = StillLocked | Right | Wrong | NowLocked

  class CachedUser {
    var failures: nat
    var lockedUntil: Option<int>

    function State(): Account
      reads this
    {
      Account(failures, lockedUntil)
    }

    /** One more wrong PIN on the counter, with the lock that its new value calls for. */
    method RecordPinFailure(now: int) returns (until: Option<int>)
      modifies this
      ensures State() == Recorded(old(State()), now) && until == lockedUntil
    {
      failures := failures + 1;
      until := LockedUntil(failures, now);
      lockedUntil := until;
    }

    method ClearPinFailures()
      modifies this
      ensures State() == UNBLEMISHED
    {
      failures, lockedUntil := 0, None;
    }

    /** While the lock lasts every PIN is refused alike, since none is compared. */
    method VerifyPin(right: bool, now: int) returns (verdict: Verdict)
      modifies this
      ensures verdict == StillLocked <==> IsLocked(old(State()), now)
      ensures IsLocked(old(State()), now) ==> State() == old(State())
      ensures !IsLocked(old(State()), now) && right ==> State() == UNBLEMISHED && verdict == Right
      ensures !IsLocked(old(State()), now) && !right ==>
        && State() == Recorded(old(State()), now)
        && verdict == if IsLocked(State(), now) then NowLocked else Wrong
    {
      LockoutShape(failures + 1);
      if IsLocked(State(), now) { return StillLocked; }
      if right {
        if failures != 0 || lockedUntil != None { ClearPinFailures(); }
        return Right;
      }
      var until := RecordPinFailure(now);
      verdict := if until == None then Wrong else NowLocked;
    }
  }

  // ---- The shape of the escalation ----

  lemma {:induction false} DoubledGrows(a: nat, b: nat)
    requires a <= b
    ensures 1 <= Doubled(a) <= Doubled(b)
    decreases b
  {
    if a < b { DoubledGrows(a, b - 1); } else if a > 0 { DoubledGrows(a - 1, b - 1); }
  }

  /** Nothing for four failures, a quarter of an hour for five to nine, half for ten to fourteen, then an hour. */
  lemma LockoutShape(failures: nat)
    ensures LockoutAfter(failures)
         == if failures < 5 then None else if failures < 10 then Some(15 * MINUTE)
            else if failures < 15 then Some(30 * MINUTE) else Some(60 * MINUTE)
  {
    assert Doubled(0) == 1 && Doubled(1) == 2 && Doubled(2) == 4;
    if failures >= 15 { DoubledGrows(2, Min(failures / FAILURES_BEFORE_LOCK - 1, MAX_DOUBLINGS)); }
  }

  /** The lock never shortens as failures mount, and never exceeds an hour. */
  lemma LockoutMonotone(a: nat, b: nat)
    requires a <= b
    ensures LockoutAfter(a).Some? ==> LockoutAfter(b).Some? && 0 < LockoutAfter(a).value <= LockoutAfter(b).value <= MAX_LOCKOUT
  {
    LockoutShape(a);
    LockoutShape(b);
  }

  // ---- Guessing ----

  /** The times, of those tried, at which a wrong PIN was really checked: the rest met a lock. */
  function Checked(a: Account, tries: seq<int>): seq<int>
    decreases |tries|
  {
    if tries == [] then []
    else if IsLocked(a, tries[0]) then Checked(a, tries[1..])
    else [tries[0]] + Checked(Recorded(a, tries[0]), tries[1..])
  }

  /** How long the lock after this many failures makes the next try wait. */
  function Wait(failures: nat): int {
    match LockoutAfter(failures)
    case None => 0
    case Some(window) => window
  }

  /** The waits behind `k` further tries. */
  function Waits(failures: nat, k: nat): int
    decreases k
  {
    if k == 0 then 0 else Wait(failures) + Waits(failures + 1, k - 1)
  }

  ghost predicate NonDecreasing(tries: seq<int>) {
    forall j, k :: 0 <= j < k < |tries| ==> tries[j] <= tries[k]
  }

  lemma {:induction false} Spacing(failures: nat, last: int, tries: seq<int>)
    requires NonDecreasing(tries) && (forall k :: 0 <= k < |tries| ==> last <= tries[k])
    ensures var cs := Checked(Account(failures, LockedUntil(failures, last)), tries);
      cs != [] ==> cs[|cs| - 1] - last >= Waits(failures, |cs|)
    decreases |tries|
  {
    hide LockoutAfter;
    var a := Account(failures, LockedUntil(failures, last));
    if tries != [] {
      if IsLocked(a, tries[0]) {
        Spacing(failures, last, tries[1..]);
      } else {
        assert Recorded(a, tries[0]) == Account(failures + 1, LockedUntil(failures + 1, tries[0]));
        Spacing(failures + 1, tries[0], tries[1..]);
        var rest := Checked(Recorded(a, tries[0]), tries[1..]);
        assert Checked(a, tries) == [tries[0]] + rest;
        assert tries[0] - last >= Wait(failures);
        assert Waits(failures, |rest| + 1) == Wait(failures) + Waits(failures + 1, |rest|);
        assert rest == [] ==> Waits(failures + 1, |rest|) == 0;
      }
    }
  }

  lemma {:induction false} WaitsAtCap(failures: nat, k: nat)
    requires failures >= 15
    ensures Waits(failures, k) == 60 * MINUTE * k
    decreases k
  {
    if k > 0 {
      LockoutShape(failures);
      WaitsAtCap(failures + 1, k - 1);
    }
  }

  lemma {:induction false} WaitsInBatch(failures: nat, k: nat, each: int, more: nat)
    requires forall i :: failures <= i < failures + k ==> Wait(i) == each
    ensures Waits(failures, k + more) == each * k + Waits(failures + k, more)
    decreases k
  {
    hide LockoutAfter, Wait;
    if k > 0 {
      WaitsInBatch(failures + 1, k - 1, each, more);
      assert each * k == each + each * (k - 1);
    }
  }

  lemma WaitsFromOne(n: nat)
    requires n >= 15
    ensures Waits(1, n - 1) == (225 + 60 * (n - 15)) * MINUTE
  {
    hide LockoutAfter;
    forall i | 1 <= i < 15 ensures Wait(i) == if i < 5 then 0 else if i < 10 then 15 * MINUTE else 30 * MINUTE {
      LockoutShape(i);
    }
    WaitsInBatch(1, 4, 0, n - 5);
    WaitsInBatch(5, 5, 15 * MINUTE, n - 10);
    WaitsInBatch(10, 5, 30 * MINUTE, n - 15);
    WaitsAtCap(15, n - 15);
  }

  lemma {:induction false} WaitsMonotone(a: nat, b: nat, k: nat)
    requires a <= b
    ensures Waits(a, k) <= Waits(b, k)
    decreases k
  {
    hide LockoutAfter;
    if k > 0 {
      LockoutMonotone(a, b);
      LockoutShape(a);
      LockoutShape(b);
      WaitsMonotone(a + 1, b + 1, k - 1);
    }
  }

  /**
    * However fast anybody types at an account, and whatever it has behind it, the wrong PINs really
    * checked, with no right one between, are as far apart as the locks between them: fifteen or more
    * span at least 225 minutes and an hour for each after that.
    */
  lemma {:induction false} GuessingIsSlow(a: Account, tries: seq<int>)
    requires NonDecreasing(tries)
    ensures var cs := Checked(a, tries);
      && (cs != [] ==> cs[|cs| - 1] - cs[0] >= Waits(a.failures + 1, |cs| - 1))
      && (|cs| >= 15 ==> cs[|cs| - 1] - cs[0] >= (225 + 60 * (|cs| - 15)) * MINUTE)
    decreases |tries|
  {
    hide LockoutAfter, Waits;
    var cs := Checked(a, tries);
    if tries != [] {
      if IsLocked(a, tries[0]) {
        GuessingIsSlow(a, tries[1..]);
      } else {
        assert Recorded(a, tries[0]) == Account(a.failures + 1, LockedUntil(a.failures + 1, tries[0]));
        FirstThenRest(a.failures + 1, tries[0], tries[1..]);
      }
    }
    if |cs| >= 15 {
      WaitsMonotone(1, a.failures + 1, |cs| - 1);
      WaitsFromOne(|cs|);
    }
  }

  lemma FirstThenRest(failures: nat, first: int, tries: seq<int>)
    requires NonDecreasing(tries) && (forall k :: 0 <= k < |tries| ==> first <= tries[k])
    ensures var cs := [first] + Checked(Account(failures, LockedUntil(failures, first)), tries);
      cs[|cs| - 1] - cs[0] >= Waits(failures, |cs| - 1)
  {
    hide LockoutAfter, Checked;
    Spacing(failures, first, tries);
  }

  // ---- And no slower ----

  /** Trying again the moment each lock lifts. */
  function Soonest(failures: nat, last: int, k: nat): (tries: seq<int>)
    ensures |tries| == k
    decreases k
  {
    if k == 0 then [] else [last + Wait(failures)] + Soonest(failures + 1, last + Wait(failures), k - 1)
  }

  lemma {:induction false} SoonestChecked(failures: nat, last: int, k: nat)
    ensures var tries := Soonest(failures, last, k);
      && Checked(Account(failures, LockedUntil(failures, last)), tries) == tries
      && (k > 0 ==> tries[k - 1] - last == Waits(failures, k))
      && (forall j :: 0 <= j < k ==> last <= tries[j]) && NonDecreasing(tries)
    decreases k
  {
    hide LockoutAfter;
    LockoutShape(failures);
    if k > 0 {
      var next := last + Wait(failures);
      SoonestChecked(failures + 1, next, k - 1);
      var tries := Soonest(failures, last, k);
      assert tries[1..] == Soonest(failures + 1, next, k - 1);
      assert Recorded(Account(failures, LockedUntil(failures, last)), next)
          == Account(failures + 1, LockedUntil(failures + 1, next));
    }
  }

  lemma FirstIsChecked(start: int, rest: seq<int>)
    ensures Checked(UNBLEMISHED, [start] + rest) == [start] + Checked(Account(1, LockedUntil(1, start)), rest)
  {
    assert ([start] + rest)[1..] == rest;
  }

  /** The bound is met exactly by somebody patient: once an hour at the cap, not five times. */
  lemma GuessingBoundIsTight(start: int, n: nat)
    requires n >= 15
    ensures var tries := [start] + Soonest(1, start, n - 1);
      && NonDecreasing(tries) && Checked(UNBLEMISHED, tries) == tries && |tries| == n
      && tries[n - 1] - tries[0] == (225 + 60 * (n - 15)) * MINUTE
  {
    hide LockoutAfter, Waits, Soonest, Checked, LockedUntil;
    SoonestChecked(1, start, n - 1);
    WaitsFromOne(n);
    FirstIsChecked(start, Soonest(1, start, n - 1));
  }
}
