/** How many wrong passwords are compared within a window when attempts overlap
    (internal/controlplane/auth.go, login and recordFailedLogin). */
module LoginBound {
  import opened Wire
  import opened Lockout
  import opened LoginRaces

  // ---------------------------------------------------------------------------
  // Counting

  /** Ways to choose `size` things of `kinds` kinds, with repetition. */
  function Ways(kinds: nat, size: nat): nat
    decreases kinds + size
  {
    if size == 0 then 1 else if kinds == 0 then 0 else Ways(kinds - 1, size) + Ways(kinds, size - 1)
  }

  lemma {:induction false} WaysGrow(n: nat, n': nat, size: nat)
    requires n <= n'
    ensures Ways(n, size) <= Ways(n', size)
    decreases n'
  {
    if size > 0 && n < n' {
      WaysGrow(n, n' - 1, size);
    }
  }

  lemma {:induction false} WaysOfOne(n: nat)
    ensures Ways(n, 1) == n
  {
    if n > 0 {
      WaysOfOne(n - 1);
    }
  }

  /** One more kind adds the choices of every smaller size. */
  lemma OneMoreKind(n: nat)
    ensures Ways(n + 1, 1) == 1 + Ways(n, 1)
    ensures Ways(n + 1, 2) == Ways(n + 1, 1) + Ways(n, 2)
    ensures Ways(n + 1, 3) == Ways(n + 1, 2) + Ways(n, 3)
    ensures Ways(n + 1, 4) == Ways(n + 1, 3) + Ways(n, 4)
    ensures Ways(n + 1, 5) == Ways(n + 1, 4) + Ways(n, 5)
  {
    assert Ways(n + 1, 0) == 1;
  }

  lemma {:induction false} WaysClosed(n: nat)
    ensures 2 * Ways(n, 2) == n * (n + 1)
    ensures 6 * Ways(n, 3) == n * (n + 1) * (n + 2)
    ensures 24 * Ways(n, 4) == n * (n + 1) * (n + 2) * (n + 3)
    ensures 120 * Ways(n, 5) == n * (n + 1) * (n + 2) * (n + 3) * (n + 4)
  {
    if n > 0 {
      var m := n - 1;
      WaysClosed(m);
      WaysOfOne(n);
      OneMoreKind(m);
      Rising(m);
    }
  }

  lemma Rising(m: nat)
    ensures m * (m + 1) + 2 * (m + 1) == (m + 1) * (m + 2)
    ensures m * (m + 1) * (m + 2) + 3 * ((m + 1) * (m + 2)) == (m + 1) * (m + 2) * (m + 3)
    ensures m * (m + 1) * (m + 2) * (m + 3) + 4 * ((m + 1) * (m + 2) * (m + 3)) ==
            (m + 1) * (m + 2) * (m + 3) * (m + 4)
    ensures m * (m + 1) * (m + 2) * (m + 3) * (m + 4) + 5 * ((m + 1) * (m + 2) * (m + 3) * (m + 4)) ==
            (m + 1) * (m + 2) * (m + 3) * (m + 4) * (m + 5)
  {
    var p2 := (m + 1) * (m + 2);
    var p3 := p2 * (m + 3);
    var p4 := p3 * (m + 4);
    assert m * (m + 1) * (m + 2) == m * p2;
    assert m * (m + 1) * (m + 2) * (m + 3) == m * p3 by { assert m * p2 * (m + 3) == m * (p2 * (m + 3)); }
    assert m * (m + 1) * (m + 2) * (m + 3) * (m + 4) == m * p4 by { assert m * p3 * (m + 4) == m * (p3 * (m + 4)); }
    assert p4 * (m + 5) == m * p4 + 5 * p4;
  }

  // ---------------------------------------------------------------------------
  // Slots

  /** At most so many attempts are under way at once. Of the slots for them, `m1` .. `m4` are taken
      by comparisons that saw at least one .. four failures; `free` are free, and the next
      comparison will see `level` failures, or is refused if that is five. */
  datatype Slots = Slots(m1: nat, m2: nat, m3: nat, m4: nat, free: nat, level: nat)

  predicate SlotsOk(s: Slots) {
    s.m1 >= s.m2 >= s.m3 >= s.m4
  }

  /** Slots that saw or will see at least `x` failures. */
  function Upto(s: Slots, m: nat, x: nat): nat {
    m + if s.level >= x then s.free else 0
  }

  /** Choices of 5, 4, 3 and 2 from so many kinds. */
  function Sum(n1: nat, n2: nat, n3: nat, n4: nat): nat {
    Ways(n1, 5) + Ways(n2, 4) + Ways(n3, 3) + Ways(n4, 2)
  }

  /** Grows with the failures seen: what has been used up of the comparisons the slots allow. */
  function Used(s: Slots): nat {
    Sum(Upto(s, s.m1, 1), Upto(s, s.m2, 2), Upto(s, s.m3, 3), Upto(s, s.m4, 4))
  }

  /** Comparisons that can start at once. */
  function Ready(s: Slots): nat {
    if s.level < MAX_FAILURES then s.free else 0
  }

  function One(b: bool): nat {
    if b then 1 else 0
  }

  function Taken(s: Slots, v: nat): Slots
    requires s.free > 0
  {
    Slots(s.m1 + One(v >= 1), s.m2 + One(v >= 2), s.m3 + One(v >= 3), s.m4 + One(v >= 4), s.free - 1, s.level)
  }

  function Freed(s: Slots, v: nat): Slots
    requires s.m1 >= One(v >= 1) && s.m2 >= One(v >= 2) && s.m3 >= One(v >= 3) && s.m4 >= One(v >= 4)
  {
    Slots(s.m1 - One(v >= 1), s.m2 - One(v >= 2), s.m3 - One(v >= 3), s.m4 - One(v >= 4), s.free + 1, v + 1)
  }

  lemma SumGrows(n1: nat, n2: nat, n3: nat, n4: nat, n1': nat, n2': nat, n3': nat, n4': nat)
    requires n1 <= n1' && n2 <= n2' && n3 <= n3' && n4 <= n4'
    ensures Sum(n1, n2, n3, n4) <= Sum(n1', n2', n3', n4')
  {
    WaysGrow(n1, n1', 5);
    WaysGrow(n2, n2', 4);
    WaysGrow(n3, n3', 3);
    WaysGrow(n4, n4', 2);
  }

  lemma TakenUses(s: Slots, v: nat)
    requires s.free > 0 && v >= s.level
    ensures Used(Taken(s, v)) >= Used(s)
  {
    hide Sum;
    var s' := Taken(s, v);
    SumGrows(Upto(s, s.m1, 1), Upto(s, s.m2, 2), Upto(s, s.m3, 3), Upto(s, s.m4, 4),
             Upto(s', s'.m1, 1), Upto(s', s'.m2, 2), Upto(s', s'.m3, 3), Upto(s', s'.m4, 4));
  }

  /** A count one higher outweighs all the counts above it. */
  lemma Outweighs(n1: nat, n2: nat, n3: nat, n4: nat)
    requires n1 >= n2 >= n3 >= n4
    ensures Sum(n1 + 1, 0, 0, 0) >= Sum(n1, n2, n3, n4) + n1 + 1
    ensures Sum(n1, n2 + 1, 0, 0) >= Sum(n1, n2, n3, n4) + n2 + 1
    ensures Sum(n1, n2, n3 + 1, 0) >= Sum(n1, n2, n3, n4) + n3 + 1
    ensures Sum(n1, n2, n3, n4 + 1) == Sum(n1, n2, n3, n4) + n4 + 1
  {
    OneMoreKind(n1);
    OneMoreKind(n2);
    OneMoreKind(n3);
    OneMoreKind(n4);
    WaysOfOne(n1);
    WaysOfOne(n2);
    WaysOfOne(n3);
    WaysOfOne(n4);
    WaysGrow(n2, n1, 4);
    WaysGrow(n3, n2, 3);
    WaysGrow(n3, n1, 3);
    WaysGrow(n4, n3, 2);
    WaysGrow(n4, n2, 2);
    WaysGrow(n4, n1, 2);
  }

  /** Recording an outcome frees a slot and sets the level, and uses up at least as much as it
      makes ready. */
  lemma FreedUses(s: Slots, v: nat)
    requires SlotsOk(s) && v < MAX_FAILURES
    requires s.m1 >= One(v >= 1) && s.m2 >= One(v >= 2) && s.m3 >= One(v >= 3) && s.m4 >= One(v >= 4)
    ensures Used(Freed(s, v)) + Ready(s) >= Used(s) + Ready(Freed(s, v))
  {
    hide Sum;
    var s' := Freed(s, v);
    var n1, n2, n3, n4 := Upto(s, s.m1, 1), Upto(s, s.m2, 2), Upto(s, s.m3, 3), Upto(s, s.m4, 4);
    var n1', n2', n3', n4' := Upto(s', s'.m1, 1), Upto(s', s'.m2, 2), Upto(s', s'.m3, 3), Upto(s', s'.m4, 4);
    Outweighs(n1, n2, n3, n4);
    if v == 0 {
      SumGrows(n1 + 1, 0, 0, 0, n1', n2', n3', n4');
    } else if v == 1 {
      SumGrows(n1, n2 + 1, 0, 0, n1', n2', n3', n4');
    } else if v == 2 {
      SumGrows(n1, n2, n3 + 1, 0, n1', n2', n3', n4');
    } else if v == 3 {
      SumGrows(n1, n2, n3, n4 + 1, n1', n2', n3', n4');
    } else {
      SumGrows(n1, n2, n3, n4, n1', n2', n3', n4');
    }
  }

  // ---------------------------------------------------------------------------
  // The table as slots

  predicate RowOk(row: Identity) {
    && row.failures < MAX_FAILURES
    && (row.lockedUntil.Some? ==>
          row.lastFailed.Some? && row.lockedUntil.value == row.lastFailed.value + LOCK)
  }

  /** Failures the next comparison of the window will see at least; five if it will be refused. */
  function Level(row: Identity, from: int): nat {
    if row.lastFailed.None? || row.lastFailed.value < from then 0
    else if row.lockedUntil.Some? then MAX_FAILURES
    else row.failures
  }

  predicate IsWrong(p: (Identity, Attempt)) {
    Judge(p.0, p.1) == Wrong
  }

  /** Failures within the window that a comparison saw. */
  function Seen(p: (Identity, Attempt)): nat {
    Counted(p.0, p.1.at) - 1
  }

  /** The attempt falls into the window, and does not succeed. */
  predicate Within(p: (Identity, Attempt), from: int) {
    RowOk(p.0) && from <= p.1.at < from + 900 && Judge(p.0, p.1) != Right
  }

  /** The wrong comparisons under way that saw at least `x` failures. */
  function Saw(t: Table, x: nat): set<nat> {
    set c | c in t.pending && IsWrong(t.pending[c]) && Seen(t.pending[c]) >= x
  }

  function SlotsOf(t: Table, from: int, w: nat): Slots
    requires |Saw(t, 0)| <= w
  {
    Slots(|Saw(t, 1)|, |Saw(t, 2)|, |Saw(t, 3)|, |Saw(t, 4)|, w - |Saw(t, 0)|, Level(t.row, from))
  }

  ghost predicate TableOk(t: Table, n: nat, from: int) {
    RowOk(t.row) && forall c | c in t.pending :: c < n && Within(t.pending[c], from)
  }

  /** A wrong comparison in the window sees what the row will give it, and less than five. */
  lemma SeesLevel(row: Identity, a: Attempt, from: int)
    requires Within((row, a), from) && IsWrong((row, a))
    ensures Level(row, from) <= Seen((row, a)) < MAX_FAILURES
  {}

  /** A recorded failure is one more than the comparison saw, or a lock through the window. */
  lemma RecordSets(row: Identity, p: (Identity, Attempt), from: int)
    requires Within(p, from) && IsWrong(p)
    ensures RowOk(Recorded(row, p.0, p.1)) && Level(Recorded(row, p.0, p.1), from) == Seen(p) + 1
  {}

  lemma SawSmaller(t: Table, x: nat, y: nat)
    requires x <= y
    ensures |Saw(t, y)| <= |Saw(t, x)|
  {
    hide IsWrong, Seen;
    Subset(Saw(t, y), Saw(t, x));
  }

  lemma Subset(a: set<nat>, b: set<nat>)
    requires a <= b
    ensures |a| <= |b|
  {
    assert b == a + (b - a);
  }

  lemma SlotsAreOk(t: Table, from: int, w: nat)
    requires |Saw(t, 0)| <= w
    ensures SlotsOk(SlotsOf(t, from, w)) && |Saw(t, 1)| <= |Saw(t, 0)|
  {
    hide Saw;
    SawSmaller(t, 0, 1);
    SawSmaller(t, 1, 2);
    SawSmaller(t, 2, 3);
    SawSmaller(t, 3, 4);
  }

  lemma SawAfterCompare(t: Table, n: nat, a: Attempt, x: nat)
    requires n !in t.pending
    ensures var p := (t.row, a);
            |Saw(Advance(t, n, Compare(a)), x)| == |Saw(t, x)| + One(IsWrong(p) && Seen(p) >= x)
  {
    hide IsWrong, Seen;
    var t', p := Advance(t, n, Compare(a)), (t.row, a);
    assert n !in Saw(t, x);
    assert Saw(t', x) == if IsWrong(p) && Seen(p) >= x then Saw(t, x) + {n} else Saw(t, x);
  }

  lemma SawAfterRecord(t: Table, n: nat, c: nat, x: nat)
    requires c in t.pending
    ensures var p := t.pending[c];
            |Saw(Advance(t, n, Record(c)), x)| == |Saw(t, x)| - One(IsWrong(p) && Seen(p) >= x)
  {
    hide IsWrong, Seen, Recorded;
    var t', p := Advance(t, n, Record(c)), t.pending[c];
    assert Saw(t', x) == Saw(t, x) - {c};
    assert IsWrong(p) && Seen(p) >= x <==> c in Saw(t, x);
  }

  lemma CompareTakes(t: Table, n: nat, a: Attempt, from: int, w: nat)
    requires TableOk(t, n, from) && Within((t.row, a), from)
    requires |Saw(t, 0)| <= w && |Saw(Advance(t, n, Compare(a)), 0)| <= w
    ensures var t', p, s := Advance(t, n, Compare(a)), (t.row, a), SlotsOf(t, from, w);
            && TableOk(t', n + 1, from)
            && (IsWrong(p) ==> s.free > 0 && SlotsOf(t', from, w) == Taken(s, Seen(p)))
            && (!IsWrong(p) ==> SlotsOf(t', from, w) == s)
  {
    hide Saw, IsWrong, Seen, Level, Within;
    SawAfterCompare(t, n, a, 0);
    SawAfterCompare(t, n, a, 1);
    SawAfterCompare(t, n, a, 2);
    SawAfterCompare(t, n, a, 3);
    SawAfterCompare(t, n, a, 4);
  }

  lemma RecordFrees(t: Table, n: nat, c: nat, from: int, w: nat)
    requires TableOk(t, n, from) && c in t.pending && IsWrong(t.pending[c]) && |Saw(t, 0)| <= w
    ensures var t', v, s := Advance(t, n, Record(c)), Seen(t.pending[c]), SlotsOf(t, from, w);
            && TableOk(t', n + 1, from) && |Saw(t', 0)| <= w
            && s.m1 >= One(v >= 1) && s.m2 >= One(v >= 2) && s.m3 >= One(v >= 3) && s.m4 >= One(v >= 4)
            && SlotsOf(t', from, w) == Freed(s, v)
  {
    RecordSets(t.row, t.pending[c], from);
    hide Saw, IsWrong, Seen, Level, Within, Recorded, RowOk;
    SawAfterRecord(t, n, c, 0);
    SawAfterRecord(t, n, c, 1);
    SawAfterRecord(t, n, c, 2);
    SawAfterRecord(t, n, c, 3);
    SawAfterRecord(t, n, c, 4);
  }

  lemma RecordElse(t: Table, n: nat, c: nat, from: int, w: nat)
    requires TableOk(t, n, from) && |Saw(t, 0)| <= w && !(c in t.pending && IsWrong(t.pending[c]))
    ensures var t' := Advance(t, n, Record(c));
            TableOk(t', n + 1, from) && |Saw(t', 0)| <= w && SlotsOf(t', from, w) == SlotsOf(t, from, w)
  {
    if c in t.pending {
      assert Within(t.pending[c], from);
      assert Recorded(t.row, t.pending[c].0, t.pending[c].1) == t.row;
      hide Saw, Level, Within, Recorded, RowOk;
      SawAfterRecord(t, n, c, 0);
      SawAfterRecord(t, n, c, 1);
      SawAfterRecord(t, n, c, 2);
      SawAfterRecord(t, n, c, 3);
      SawAfterRecord(t, n, c, 4);
    }
  }

  // ---------------------------------------------------------------------------
  // The bound

  /** Wrong passwords compared among the steps i .. j-1. */
  function WrongCompares(es: seq<Step>, i: nat, j: nat): nat
    requires i <= j <= |es|
    decreases j
  {
    if i == j then 0
    else WrongCompares(es, i, j - 1) + One(es[j - 1].Compare? && ComparedAs(es, j - 1) == Wrong)
  }

  /** The attempts that start in steps i .. j-1 lie in one half-open window, none succeeds, and
      no more than `w` are under way at once, none of them at the start. */
  ghost predicate Overlap(es: seq<Step>, i: nat, j: nat, from: int, w: nat)
    requires i <= j <= |es|
  {
    && Reached(es, i).pending == map[]
    && (forall n | i <= n <= j :: |Reached(es, n).pending| <= w)
    && (forall n | i <= n < j && es[n].Compare? ::
          from <= es[n].attempt.at < from + 900 && ComparedAs(es, n) != Right)
  }

  lemma {:induction false} RowsAreOk(es: seq<Step>, n: nat)
    requires n <= |es|
    ensures var t := Reached(es, n);
            RowOk(t.row) && forall c | c in t.pending :: RowOk(t.pending[c].0)
  {
    if n > 0 {
      RowsAreOk(es, n - 1);
    }
  }

  lemma SawPending(t: Table)
    ensures |Saw(t, 0)| <= |t.pending|
  {
    hide IsWrong;
    Subset(Saw(t, 0), t.pending.Keys);
  }

  /** The comparisons made and ready do not exceed what is used up. */
  ghost predicate Paid(t: Table, n: nat, from: int, w: nat, done: nat) {
    && TableOk(t, n, from) && |Saw(t, 0)| <= w
    && done + Ready(SlotsOf(t, from, w)) <= w + Used(SlotsOf(t, from, w))
  }

  lemma CompareIsPaid(t: Table, n: nat, a: Attempt, from: int, w: nat, done: nat)
    requires Paid(t, n, from, w, done) && Within((t.row, a), from)
    requires |Saw(Advance(t, n, Compare(a)), 0)| <= w
    ensures Paid(Advance(t, n, Compare(a)), n + 1, from, w, done + One(IsWrong((t.row, a))))
  {
    hide Saw, Seen, Used, Level, IsWrong, Within, TableOk;
    CompareTakes(t, n, a, from, w);
    if IsWrong((t.row, a)) {
      SeesLevel(t.row, a, from);
      TakenUses(SlotsOf(t, from, w), Seen((t.row, a)));
    }
  }

  lemma RecordIsPaid(t: Table, n: nat, c: nat, from: int, w: nat, done: nat)
    requires Paid(t, n, from, w, done)
    ensures Paid(Advance(t, n, Record(c)), n + 1, from, w, done)
  {
    hide Saw, Seen, Used, Level, IsWrong, Within, Advance;
    if c in t.pending && IsWrong(t.pending[c]) {
      RecordFrees(t, n, c, from, w);
      SeesLevel(t.pending[c].0, t.pending[c].1, from);
      SlotsAreOk(t, from, w);
      FreedUses(SlotsOf(t, from, w), Seen(t.pending[c]));
    } else {
      RecordElse(t, n, c, from, w);
    }
  }

  lemma NothingPaid(t: Table, n: nat, from: int, w: nat)
    requires t.pending == map[] && RowOk(t.row)
    ensures Paid(t, n, from, w, 0)
  {
    assert forall x :: Saw(t, x) == {};
  }

  lemma {:induction false} StaysPaid(es: seq<Step>, i: nat, j: nat, from: int, w: nat)
    requires i <= j <= |es| && Overlap(es, i, j, from, w)
    ensures Paid(Reached(es, j), j, from, w, WrongCompares(es, i, j))
    decreases j
  {
    hide Paid, Saw, RowOk, Advance;
    if i == j {
      RowsAreOk(es, i);
      NothingPaid(Reached(es, i), i, from, w);
    } else {
      var n := j - 1;
      StaysPaid(es, i, n, from, w);
      RowsAreOk(es, n);
      var t := Reached(es, n);
      match es[n] {
        case Compare(a) =>
          SawPending(Reached(es, j));
          CompareIsPaid(t, n, a, from, w, WrongCompares(es, i, n));
        case Record(c) => RecordIsPaid(t, n, c, from, w, WrongCompares(es, i, n));
      }
    }
  }

  lemma MostUsed(w: nat)
    ensures w + Sum(w, w, w, w) + 1 == Ways(w + 1, 5)
  {
    OneMoreKind(w);
    WaysOfOne(w);
  }

  lemma PaidIsBounded(t: Table, n: nat, from: int, w: nat, done: nat)
    requires Paid(t, n, from, w, done)
    ensures done < Ways(w + 1, 5)
  {
    hide Saw, Level, TableOk, Sum, Ways;
    var s := SlotsOf(t, from, w);
    SlotsAreOk(t, from, w);
    SumGrows(Upto(s, s.m1, 1), Upto(s, s.m2, 2), Upto(s, s.m3, 3), Upto(s, s.m4, 4), w, w, w, w);
    MostUsed(w);
  }

  /** With at most `w` attempts under way at once, fewer than "w + 5 over 5" wrong passwords are
      compared in a half-open window without a success. */
  lemma BoundWithOverlap(es: seq<Step>, i: nat, j: nat, from: int, w: nat)
    requires i <= j <= |es| && Overlap(es, i, j, from, w)
    ensures 120 * (WrongCompares(es, i, j) + 1) <= (w + 1) * (w + 2) * (w + 3) * (w + 4) * (w + 5)
  {
    hide Overlap, Reached, WrongCompares, Paid, Ways;
    StaysPaid(es, i, j, from, w);
    PaidIsBounded(Reached(es, j), j, from, w, WrongCompares(es, i, j));
    WaysClosed(w + 1);
  }
}
