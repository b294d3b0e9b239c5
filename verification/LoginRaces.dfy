/** Logins on one identity that overlap (internal/controlplane/auth.go, login and
    recordFailedLogin): the row is read at the start of an attempt and written at its end,
    from what was read. */
module LoginRaces {
  import opened Wire
  import opened Lockout

  /** Steps of attempts: reading the row and comparing the password, then writing the outcome.
      A step is named by its place in the run. */
  datatype Step = Compare(attempt: Attempt) | Record(compare: nat)

  /** The row, and the rows read by attempts that have not recorded their outcome. */
  datatype Table = Table(row: Identity, pending: map<nat, (Identity, Attempt)>)

  /** What the write makes of the row, given the row that was read. */
  function Recorded(row: Identity, read: Identity, a: Attempt): Identity {
    match Judge(read, a)
    case Locked => row
    case Refused => row
    case Right => row.(failures := 0, lockedUntil := None)
    case Wrong => Next(read, a)
  }

  function Advance(t: Table, n: nat, e: Step): Table {
    match e
    case Compare(a) => t.(pending := t.pending[n := (t.row, a)])
    case Record(c) =>
      if c !in t.pending then t
      else Table(Recorded(t.row, t.pending[c].0, t.pending[c].1), t.pending - {c})
  }

  function Reached(es: seq<Step>, n: nat): Table
    requires n <= |es|
  {
    if n == 0 then Table(FRESH, map[]) else Advance(Reached(es, n - 1), n - 1, es[n - 1])
  }

  /** The verdict of the comparison at step `i`. */
  function ComparedAs(es: seq<Step>, i: nat): Verdict
    requires i < |es| && es[i].Compare?
  {
    Judge(Reached(es, i).row, es[i].attempt)
  }

  /** Each attempt ends before the next begins. */
  ghost predicate OneAtATime(es: seq<Step>) {
    && |es| % 2 == 0
    && forall i: nat | 2 * i + 1 < |es| :: es[2 * i].Compare? && es[2 * i + 1] == Record(2 * i)
  }

  /** The attempts of such a run, in order. */
  function Attempts(es: seq<Step>): seq<Attempt>
    requires forall i: nat | 2 * i + 1 < |es| :: es[2 * i].Compare?
  {
    seq(|es| / 2, i requires 0 <= i < |es| / 2 => es[2 * i].attempt)
  }

  /** Attempts made one at a time are the attempts of the sequential row. */
  lemma {:induction false} OneAtATimeIsSequential(es: seq<Step>, k: nat)
    requires OneAtATime(es) && 2 * k <= |es|
    ensures Reached(es, 2 * k) == Table(After(Attempts(es), k), map[])
    ensures 2 * k < |es| ==> ComparedAs(es, 2 * k) == VerdictOf(Attempts(es), k)
  {
    if k > 0 {
      var i := k - 1;
      OneAtATimeIsSequential(es, i);
      var row, a := After(Attempts(es), i), es[2 * i].attempt;
      assert es[2 * i + 1] == Record(2 * i);
      assert Reached(es, 2 * i + 1) == Table(row, map[2 * i := (row, a)]);
      assert Reached(es, 2 * i + 2) == Table(Recorded(row, row, a), map[2 * i := (row, a)] - {2 * i});
      assert Recorded(row, row, a) == Next(row, a);
    }
  }

  /** Wrong passwords compared among the attempts i .. j-1 of such a run. */
  function Compared(es: seq<Step>, i: nat, j: nat): nat
    requires OneAtATime(es) && i <= j && 2 * j <= |es|
    decreases j
  {
    if i == j then 0 else Compared(es, i, j - 1) + if ComparedAs(es, 2 * (j - 1)) == Wrong then 1 else 0
  }

  lemma {:induction false} ComparedIsWrongs(es: seq<Step>, i: nat, j: nat)
    requires OneAtATime(es) && i <= j && 2 * j <= |es|
    ensures Compared(es, i, j) == Wrongs(Attempts(es), i, j)
    decreases j
  {
    if i < j {
      ComparedIsWrongs(es, i, j - 1);
      OneAtATimeIsSequential(es, j - 1);
    }
  }

  /** One at a time, at most five wrong passwords are compared in a half-open window without a
      success. */
  lemma FiveOneAtATime(es: seq<Step>, i: nat, j: nat)
    requires OneAtATime(es) && i <= j && 2 * j <= |es|
    requires Ordered(Attempts(es)) && Burst(Attempts(es), i, j)
    ensures Compared(es, i, j) <= 5
  {
    ComparedIsWrongs(es, i, j);
    AtMostFiveWrongPasswords(Attempts(es), i, j);
  }

  // ---------------------------------------------------------------------------
  // Overlapping attempts

  /** `n` wrong passwords at one instant, all compared before any is recorded. */
  function AtOnce(n: nat, at: int): seq<Step> {
    seq(2 * n, i requires 0 <= i < 2 * n => if i < n then Compare(Attempt(at, Mismatch)) else Record(i - n))
  }

  /** Exactly the attempts lo .. hi-1 are pending, and all of them read a fresh row. */
  ghost predicate Waiting(t: Table, lo: nat, hi: nat, at: int) {
    && (forall i: nat :: i in t.pending <==> lo <= i < hi)
    && (forall i | i in t.pending :: t.pending[i] == (FRESH, Attempt(at, Mismatch)))
  }

  lemma {:induction false} AllCompared(n: nat, at: int, k: nat)
    requires k <= n
    ensures var t := Reached(AtOnce(n, at), k);
            t.row == FRESH && Waiting(t, 0, k, at)
  {
    if k > 0 {
      AllCompared(n, at, k - 1);
    }
  }

  lemma {:induction false} AllRecorded(n: nat, at: int, k: nat)
    requires 0 < k <= n
    ensures var t := Reached(AtOnce(n, at), n + k);
            && t.row == Identity(1, Some(at), None)
            && Waiting(t, k, n, at)
  {
    if k == 1 {
      AllCompared(n, at, n);
    } else {
      AllRecorded(n, at, k - 1);
    }
    assert AtOnce(n, at)[n + k - 1] == Record(k - 1);
  }

  /** Any number of overlapping wrong passwords are all compared, count as one failure, and
      start no lock. */
  lemma OverlappingAreAllCompared(n: nat, at: int)
    ensures forall i | 0 <= i < n :: AtOnce(n, at)[i].Compare? && ComparedAs(AtOnce(n, at), i) == Wrong
    ensures n > 0 ==> Reached(AtOnce(n, at), 2 * n) == Table(Identity(1, Some(at), None), map[])
  {
    forall i | 0 <= i < n
      ensures ComparedAs(AtOnce(n, at), i) == Wrong
    {
      AllCompared(n, at, i);
    }
    if n > 0 {
      AllRecorded(n, at, n);
      assert forall i: nat :: i !in Reached(AtOnce(n, at), 2 * n).pending;
    }
  }
}
