/** Login throttling on one identity (internal/controlplane/auth.go, login and
    recordFailedLogin). Times are instants of one clock, read once per attempt. */
module Lockout {
  import opened Wire

  const MAX_FAILURES: nat := 5
  const MINUTES: nat := 60
  const WINDOW: nat := 15 * MINUTES
  const LOCK: nat := 15 * MINUTES

  datatype Identity = Identity(failures: nat, lastFailed: Option<int>, lockedUntil: Option<int>)

  /** How the submitted password compares with the stored hash, if one is stored. */
  datatype Comparison = NoHash | Mismatch | Match

  datatype Attempt = Attempt(at: int, password: Comparison)

  /** What an attempt ends in; only Wrong and Right have compared the password. */
  datatype Verdict = Locked | Refused | Wrong | Right

  predicate IsLocked(id: Identity, now: int) {
    id.lockedUntil.Some? && id.lockedUntil.value > now
  }

  function Counted(id: Identity, now: int): nat {
    if id.lastFailed.Some? && now - id.lastFailed.value > WINDOW then 1 else id.failures + 1
  }

  function Judge(id: Identity, a: Attempt): Verdict {
    if IsLocked(id, a.at) then Locked
    else match a.password
      case NoHash => Refused
      case Mismatch => Wrong
      case Match => Right
  }

  function Next(id: Identity, a: Attempt): Identity {
    match Judge(id, a)
    case Locked => id
    case Refused => id
    case Right => id.(failures := 0, lockedUntil := None)
    case Wrong =>
      if Counted(id, a.at) >= MAX_FAILURES then Identity(0, Some(a.at), Some(a.at + LOCK))
      else Identity(Counted(id, a.at), Some(a.at), None)
  }

  /** The row and the handler. */
  class Row {
    var failures: nat
    var lastFailed: Option<int>
    var lockedUntil: Option<int>

    function Now(): Identity
      reads this
    {
      Identity(failures, lastFailed, lockedUntil)
    }

    constructor ()
      ensures Now() == Identity(0, None, None)
    {
      failures, lastFailed, lockedUntil := 0, None, None;
    }

    method RecordFailedLogin(now: int)
      modifies this
      ensures Now() ==
              if Counted(old(Now()), now) >= MAX_FAILURES then Identity(0, Some(now), Some(now + LOCK))
              else Identity(Counted(old(Now()), now), Some(now), None)
    {
      var count := failures + 1;
      if lastFailed.Some? && now - lastFailed.value > WINDOW {
        count := 1;
      }
      lockedUntil := None;
      if count >= MAX_FAILURES {
        lockedUntil := Some(now + LOCK);
        count := 0;
      }
      failures, lastFailed := count, Some(now);
    }

    method Login(now: int, password: Comparison) returns (v: Verdict)
      modifies this
      ensures v == Judge(old(Now()), Attempt(now, password))
      ensures Now() == Next(old(Now()), Attempt(now, password))
    {
      if lockedUntil.Some? && lockedUntil.value > now { return Locked; }
      if password == NoHash { return Refused; }
      if password == Mismatch {
        RecordFailedLogin(now);
        return Wrong;
      }
      failures, lockedUntil := 0, None;
      return Right;
    }
  }

  // ---------------------------------------------------------------------------
  // Runs

  const FRESH := Identity(0, None, None)

  /** The identity after the first `n` attempts. */
  function After(tries: seq<Attempt>, n: nat): Identity
    requires n <= |tries|
  {
    if n == 0 then FRESH else Next(After(tries, n - 1), tries[n - 1])
  }

  function VerdictOf(tries: seq<Attempt>, i: nat): Verdict
    requires i < |tries|
  {
    Judge(After(tries, i), tries[i])
  }

  ghost predicate Ordered(tries: seq<Attempt>) {
    forall i, j | 0 <= i < j < |tries| :: tries[i].at <= tries[j].at
  }

  /** The streak of failures, counted from the attempts and their verdicts: wrong
      passwords since the last success, lock, or gap of more than the window. */
  function Streak(tries: seq<Attempt>, n: nat): nat
    requires n <= |tries|
  {
    if n == 0 then 0
    else
      match VerdictOf(tries, n - 1)
      case Locked => Streak(tries, n - 1)
      case Refused => Streak(tries, n - 1)
      case Right => 0
      case Wrong =>
        var streak := if Gap(tries, n - 1) then 1 else Streak(tries, n - 1) + 1;
        if streak == MAX_FAILURES then 0 else streak
  }

  /** More than fifteen minutes have passed since the previous wrong password. */
  predicate Gap(tries: seq<Attempt>, i: nat)
    requires i < |tries|
  {
    LastWrong(tries, i).Some? && tries[i].at - LastWrong(tries, i).value > 900
  }

  function LastWrong(tries: seq<Attempt>, n: nat): Option<int>
    requires n <= |tries|
    decreases n
  {
    if n == 0 then None
    else if VerdictOf(tries, n - 1) == Wrong then Some(tries[n - 1].at)
    else LastWrong(tries, n - 1)
  }

  /** The stored count is the streak, and never reaches five. */
  lemma {:induction false} StoredCountIsStreak(tries: seq<Attempt>, n: nat)
    requires n <= |tries|
    ensures After(tries, n).failures == Streak(tries, n) < MAX_FAILURES
    ensures After(tries, n).lastFailed == LastWrong(tries, n)
  {
    if n > 0 {
      StoredCountIsStreak(tries, n - 1);
    }
  }

  /** A lock starts at exactly the wrong password that is the fifth of its streak. */
  lemma LockStartsAtFifth(tries: seq<Attempt>, i: nat)
    requires i < |tries|
    ensures VerdictOf(tries, i) == Wrong && IsLocked(After(tries, i + 1), tries[i].at) <==>
            VerdictOf(tries, i) == Wrong && !Gap(tries, i) && Streak(tries, i) == MAX_FAILURES - 1
  {
    StoredCountIsStreak(tries, i);
  }

  /** Wrong passwords checked among attempts i .. j-1. */
  function Wrongs(tries: seq<Attempt>, i: nat, j: nat): nat
    requires i <= j <= |tries|
    decreases j
  {
    if i == j then 0 else Wrongs(tries, i, j - 1) + if VerdictOf(tries, j - 1) == Wrong then 1 else 0
  }

  /** Attempt `i` starts a lock. */
  predicate StartsLock(tries: seq<Attempt>, i: nat)
    requires i < |tries|
  {
    VerdictOf(tries, i) == Wrong && IsLocked(After(tries, i + 1), tries[i].at)
  }

  /** Attempts k .. n-1 hold no success, no start of a lock, and no wrong password that came
      more than the window after the one before it among them. */
  ghost predicate Unbroken(tries: seq<Attempt>, k: nat, n: nat)
    requires k <= n <= |tries|
  {
    && (forall j: nat | k <= j < n :: VerdictOf(tries, j) != Right && !StartsLock(tries, j))
    && (forall j: nat | k <= j < n && VerdictOf(tries, j) == Wrong && Wrongs(tries, k, j) > 0 :: !Gap(tries, j))
  }

  /** Every wrong password of an unbroken stretch is in the stored count. */
  lemma {:induction false} StretchIsCounted(tries: seq<Attempt>, k: nat, n: nat)
    requires k <= n <= |tries| && Unbroken(tries, k, n)
    ensures Wrongs(tries, k, n) <= After(tries, n).failures
    decreases n
  {
    if k < n {
      StretchIsCounted(tries, k, n - 1);
      StoredCountIsStreak(tries, n - 1);
      assert VerdictOf(tries, n - 1) != Right && !StartsLock(tries, n - 1);
    }
  }

  /** And the count is exactly the wrong passwords of some unbroken stretch. */
  lemma {:induction false} CountIsAStretch(tries: seq<Attempt>, n: nat) returns (k: nat)
    requires n <= |tries|
    ensures k <= n && Unbroken(tries, k, n) && Wrongs(tries, k, n) == After(tries, n).failures
  {
    k := n;
    if n > 0 {
      var before := CountIsAStretch(tries, n - 1);
      match VerdictOf(tries, n - 1) {
        case Right =>
        case Wrong => k := WrongStretch(tries, n - 1, before);
        case _ => k := before;
      }
    }
  }

  lemma WrongStretch(tries: seq<Attempt>, i: nat, before: nat) returns (k: nat)
    requires before <= i < |tries| && VerdictOf(tries, i) == Wrong
    requires Unbroken(tries, before, i) && Wrongs(tries, before, i) == After(tries, i).failures
    ensures k <= i + 1 && Unbroken(tries, k, i + 1) && Wrongs(tries, k, i + 1) == After(tries, i + 1).failures
  {
    StoredCountIsStreak(tries, i);
    if StartsLock(tries, i) {
      k := i + 1;
    } else if Gap(tries, i) {
      k := i;
      assert Wrongs(tries, i, i) == 0;
    } else {
      k := before;
    }
    hide After;
  }

  /** A lock starts at attempt `i` exactly when the password is wrong and is the fifth wrong
      one of a stretch since which there was no success, no lock and no gap. */
  lemma LockStartsIff(tries: seq<Attempt>, i: nat)
    requires i < |tries|
    ensures StartsLock(tries, i) <==>
            && VerdictOf(tries, i) == Wrong
            && exists k: nat | k < i ::
                 Unbroken(tries, k, i) && !Gap(tries, i) && Wrongs(tries, k, i + 1) == 5
  {
    StoredCountIsStreak(tries, i);
    if StartsLock(tries, i) {
      var k := CountIsAStretch(tries, i);
      assert Wrongs(tries, k, i + 1) == MAX_FAILURES && Unbroken(tries, k, i) && !Gap(tries, i);
    }
    if k: nat :| k < i && VerdictOf(tries, i) == Wrong && Unbroken(tries, k, i) && !Gap(tries, i)
                 && Wrongs(tries, k, i + 1) == MAX_FAILURES {
      StretchIsCounted(tries, k, i);
    }
  }

  // ---------------------------------------------------------------------------
  // What an attempt ends in

  /** One of the first `n` attempts started a lock that still holds: it lasts fifteen minutes. */
  ghost predicate LockHeld(tries: seq<Attempt>, n: nat, now: int)
    requires n <= |tries|
  {
    exists j: nat | j < n :: StartsLock(tries, j) && now < tries[j].at + 900
  }

  ghost predicate LockedOut(tries: seq<Attempt>, i: nat)
    requires i < |tries|
  {
    LockHeld(tries, i, tries[i].at)
  }

  lemma LockAfterOne(tries: seq<Attempt>, i: nat, now: int)
    requires i < |tries| && tries[i].at <= now
    ensures IsLocked(After(tries, i + 1), now) <==>
            IsLocked(After(tries, i), now) || (StartsLock(tries, i) && now < tries[i].at + 900)
  {}

  /** The row is locked exactly while a lock that was started holds. */
  lemma {:induction false} LockIsRemembered(tries: seq<Attempt>, n: nat, now: int)
    requires n <= |tries| && forall j | 0 <= j < n :: tries[j].at <= now
    ensures IsLocked(After(tries, n), now) <==> LockHeld(tries, n, now)
  {
    hide StartsLock, IsLocked, After;
    if n == 0 {
      NeverLocked(tries, now);
    } else {
      LockIsRemembered(tries, n - 1, now);
      LockAfterOne(tries, n - 1, now);
    }
  }

  lemma NeverLocked(tries: seq<Attempt>, now: int)
    ensures !IsLocked(After(tries, 0), now)
  {}

  /** Over every run in time order, an attempt succeeds exactly if the password matches and no
      lock holds, is counted as wrong exactly if it does not match and no lock holds, and
      otherwise leaves the row as it was: with no stored hash, or during a lock. */
  lemma VerdictIff(tries: seq<Attempt>, i: nat)
    requires Ordered(tries) && i < |tries|
    ensures VerdictOf(tries, i) == Right <==> tries[i].password == Match && !LockedOut(tries, i)
    ensures VerdictOf(tries, i) == Wrong <==> tries[i].password == Mismatch && !LockedOut(tries, i)
    ensures VerdictOf(tries, i) == Locked <==> LockedOut(tries, i)
    ensures tries[i].password == NoHash || LockedOut(tries, i) ==> After(tries, i + 1) == After(tries, i)
    ensures tries[i].password == Match && !LockedOut(tries, i) ==>
              After(tries, i + 1).failures == 0 && After(tries, i + 1).lockedUntil.None?
  {
    LockIsRemembered(tries, i, tries[i].at);
    hide StartsLock;
  }

  /** Attempts i .. j-1 lie in one half-open window and none succeeds. */
  ghost predicate Burst(tries: seq<Attempt>, i: nat, j: nat)
    requires i <= j <= |tries|
  {
    && (forall k | i <= k < j :: tries[i].at <= tries[k].at < tries[i].at + 900)
    && (forall k | i <= k < j :: VerdictOf(tries, k) != Right)
  }

  /** During a burst every checked password so far is in the streak, until the lock. */
  lemma {:induction false} BurstCounts(tries: seq<Attempt>, i: nat, j: nat)
    requires Ordered(tries) && i <= j <= |tries| && Burst(tries, i, j)
    ensures var id := After(tries, j);
            || (&& Wrongs(tries, i, j) <= id.failures
                && (Wrongs(tries, i, j) > 0 ==> id.lastFailed.Some? && id.lastFailed.value >= tries[i].at))
            || (&& Wrongs(tries, i, j) <= MAX_FAILURES
                && id.lockedUntil.Some? && id.lockedUntil.value >= tries[i].at + LOCK)
    decreases j
  {
    if i < j {
      BurstCounts(tries, i, j - 1);
      StoredCountIsStreak(tries, j - 1);
      assert tries[j - 1].at < tries[i].at + WINDOW;
    }
  }

  /** At most five wrong passwords are checked in any half-open fifteen-minute window
      without a success. */
  lemma AtMostFiveWrongPasswords(tries: seq<Attempt>, i: nat, j: nat)
    requires Ordered(tries) && i <= j <= |tries| && Burst(tries, i, j)
    ensures Wrongs(tries, i, j) <= 5
  {
    BurstCounts(tries, i, j);
    StoredCountIsStreak(tries, j);
  }

  /** Five wrong passwords at once and one more when the window closes. */
  function SixTries(): seq<Attempt> {
    seq(5, i => Attempt(0, Mismatch)) + [Attempt(900, Mismatch)]
  }

  /** The window cannot be closed at both ends: a sixth wrong password is compared
      exactly fifteen minutes after the first. */
  lemma SixthAtTheEndOfTheWindow()
    ensures Ordered(SixTries()) && forall i | 0 <= i < 6 :: VerdictOf(SixTries(), i) == Wrong
    ensures SixTries()[5].at == SixTries()[0].at + 900
  {
    var t := SixTries();
    assert After(t, 1) == Identity(1, Some(0), None);
    assert After(t, 2) == Identity(2, Some(0), None);
    assert After(t, 3) == Identity(3, Some(0), None);
    assert After(t, 4) == Identity(4, Some(0), None);
    assert After(t, 5) == Identity(0, Some(0), Some(LOCK));
    forall i | 0 <= i < 6
      ensures VerdictOf(t, i) == Wrong
    {
      assert i == 0 || i == 1 || i == 2 || i == 3 || i == 4 || i == 5;
    }
  }
}
