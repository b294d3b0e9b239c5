/** A run of overlapping logins that compares as many wrong passwords as LoginBound allows. */
module LoginSpree {
  import opened Wire
  import opened Lockout
  import opened LoginRaces
  import opened LoginBound

  // ---------------------------------------------------------------------------
  // Playing steps from any table

  /** The table after the steps, the first of which is step `n` of the run. */
  function Play(t: Table, n: nat, es: seq<Step>): Table {
    if es == [] then t else Advance(Play(t, n, es[..|es| - 1]), n + |es| - 1, es[|es| - 1])
  }

  /** Wrong passwords compared on the way. */
  function Misses(t: Table, n: nat, es: seq<Step>): nat {
    if es == [] then 0
    else
      var init, last := es[..|es| - 1], es[|es| - 1];
      Misses(t, n, init) + One(last.Compare? && IsWrong((Play(t, n, init).row, last.attempt)))
  }

  function Max(a: nat, b: nat): nat {
    if a < b then b else a
  }

  /** The most attempts under way at once on the way. */
  function Peak(t: Table, n: nat, es: seq<Step>): nat {
    if es == [] then |t.pending| else Max(Peak(t, n, es[..|es| - 1]), |Play(t, n, es).pending|)
  }

  lemma {:induction false} PlayPlus(t: Table, n: nat, es: seq<Step>, es': seq<Step>)
    ensures Play(t, n, es + es') == Play(Play(t, n, es), n + |es|, es')
    ensures Misses(t, n, es + es') == Misses(t, n, es) + Misses(Play(t, n, es), n + |es|, es')
    ensures Peak(t, n, es + es') == Max(Peak(t, n, es), Peak(Play(t, n, es), n + |es|, es'))
  {
    hide Advance, IsWrong;
    if es' == [] {
      assert es + es' == es;
      LastInPeak(t, n, es);
    } else {
      var init, last := es'[..|es'| - 1], es'[|es'| - 1];
      PlayPlus(t, n, es, init);
      assert (es + es')[..|es + es'| - 1] == es + init;
    }
  }

  lemma LastInPeak(t: Table, n: nat, es: seq<Step>)
    ensures |Play(t, n, es).pending| <= Peak(t, n, es)
  {}

  /** The steps lead from one table to the other, compare so many wrong passwords, and never have
      more than `peak` attempts under way. */
  ghost predicate Leads(t: Table, n: nat, es: seq<Step>, t': Table, wrong: int, peak: nat) {
    Play(t, n, es) == t' && Misses(t, n, es) == wrong && Peak(t, n, es) <= peak
  }

  lemma LeadsPlus(
    t: Table, n: nat, es: seq<Step>, t1: Table, wrong: int, es': seq<Step>, t2: Table, wrong': int, peak: nat)
    requires Leads(t, n, es, t1, wrong, peak) && Leads(t1, n + |es|, es', t2, wrong', peak)
    ensures Leads(t, n, es + es', t2, wrong + wrong', peak)
  {
    hide Play, Misses, Peak;
    PlayPlus(t, n, es, es');
  }

  lemma LeadsOn(
    t: Table, n: nat, es: seq<Step>, t1: Table, wrong: int, e: Step, t2: Table, es': seq<Step>, t3: Table, wrong': int,
    peak: nat)
    requires Leads(t, n, es, t1, wrong, peak) && Leads(t1, n + |es|, [e], t2, 0, peak)
    requires Leads(t2, n + |es| + 1, es', t3, wrong', peak)
    ensures Leads(t, n, es + [e] + es', t3, wrong + wrong', peak)
  {
    hide Leads;
    LeadsPlus(t, n, es, t1, wrong, [e], t2, 0, peak);
    LeadsPlus(t, n, es + [e], t2, wrong, es', t3, wrong', peak);
  }

  lemma LeadsNone(t: Table, n: nat, peak: nat)
    requires |t.pending| <= peak
    ensures Leads(t, n, [], t, 0, peak)
  {}

  lemma LeadsOne(t: Table, n: nat, e: Step, peak: nat)
    requires |t.pending| <= peak && |Advance(t, n, e).pending| <= peak
    ensures Leads(t, n, [e], Advance(t, n, e), One(e.Compare? && IsWrong((t.row, e.attempt))), peak)
  {
    hide Advance, IsWrong;
    assert [e][..0] == [];
    assert Play(t, n, []) == t && Misses(t, n, []) == 0 && Peak(t, n, []) == |t.pending|;
    assert Play(t, n, [e]) == Advance(t, n, e);
  }

  /** What was played is what was reached. */
  lemma {:induction false} PlayReaches(es: seq<Step>, n: nat)
    requires n <= |es|
    ensures var t := Table(FRESH, map[]);
            && Play(t, 0, es[..n]) == Reached(es, n)
            && Misses(t, 0, es[..n]) == WrongCompares(es, 0, n)
            && |Reached(es, n).pending| <= Peak(t, 0, es[..n])
  {
    hide Advance, Judge;
    if n > 0 {
      PlayReaches(es, n - 1);
      assert es[..n][..n - 1] == es[..n - 1];
    }
  }

  lemma {:induction false} PeakOfPrefix(t: Table, es: seq<Step>, n: nat)
    requires n <= |es|
    ensures Peak(t, 0, es[..n]) <= Peak(t, 0, es)
    decreases |es|
  {
    if n == |es| {
      assert es[..n] == es;
    } else {
      PeakOfPrefix(t, es[..|es| - 1], n);
      assert es[..|es| - 1][..n] == es[..n];
    }
  }

  // ---------------------------------------------------------------------------
  // The run

  /** The row as the next attempt finds it after so many failures, all at one instant. */
  function RowAt(failures: nat, at: int): Identity {
    if failures == 0 then FRESH
    else if failures < MAX_FAILURES then Identity(failures, Some(at), None)
    else Identity(0, Some(at), Some(at + LOCK))
  }

  /** `k` wrong passwords, none recorded yet. */
  function Fill(k: nat, at: int): seq<Step> {
    seq(k, _ => Compare(Attempt(at, Mismatch)))
  }

  /** With `k` slots free and so many failures in the row, from step `n` on: fill the slots, then
      record them one by one, newest first, each time using the slots that are free by then. */
  function Spree(k: nat, failures: nat, n: nat, at: int): seq<Step>
    requires failures <= MAX_FAILURES
    decreases MAX_FAILURES - failures, 1, 0
  {
    if failures == MAX_FAILURES then [] else Fill(k, at) + Drain(k, failures, n, k, at)
  }

  function Drain(k: nat, failures: nat, n: nat, i: nat, at: int): seq<Step>
    requires failures < MAX_FAILURES && i <= k
    decreases MAX_FAILURES - failures, 0, i
  {
    if i == 0 then []
    else
      var before := Drain(k, failures, n, i - 1, at);
      before + [Record(n + k - i)] + Spree(i, failures + 1, n + k + |before| + 1, at)
  }

  /** The attempts under way, and `k` more that started with step `n` and saw so many failures. */
  function Stacked(base: map<nat, (Identity, Attempt)>, n: nat, k: nat, failures: nat, at: int):
    map<nat, (Identity, Attempt)>
  {
    if k == 0 then base
    else Stacked(base, n, k - 1, failures, at)[n + k - 1 := (RowAt(failures, at), Attempt(at, Mismatch))]
  }

  ghost predicate Before(pending: map<nat, (Identity, Attempt)>, n: nat) {
    forall c | c in pending :: c < n
  }

  lemma {:induction false} StackedBefore(
    base: map<nat, (Identity, Attempt)>, n: nat, k: nat, failures: nat, at: int)
    requires Before(base, n)
    ensures var p := Stacked(base, n, k, failures, at); Before(p, n + k) && |p| == |base| + k
  {
    hide RowAt;
    if k > 0 {
      StackedBefore(base, n, k - 1, failures, at);
      OneMore(Stacked(base, n, k - 1, failures, at), n + k - 1, (RowAt(failures, at), Attempt(at, Mismatch)));
    }
  }

  lemma OneMore(p: map<nat, (Identity, Attempt)>, c: nat, x: (Identity, Attempt))
    requires Before(p, c)
    ensures Before(p[c := x], c + 1) && |p[c := x]| == |p| + 1 && p[c := x] - {c} == p
  {
    assert p[c := x].Keys == p.Keys + {c} && c !in p.Keys;
    assert |p| == |p.Keys| && |p[c := x]| == |p[c := x].Keys|;
  }

  lemma {:induction false} Filled(
    base: map<nat, (Identity, Attempt)>, n: nat, k: nat, failures: nat, at: int, peak: nat)
    requires Before(base, n) && failures < MAX_FAILURES && |base| + k <= peak
    ensures var t := Table(RowAt(failures, at), base);
            Leads(t, n, Fill(k, at), t.(pending := Stacked(base, n, k, failures, at)), k, peak)
  {
    hide Leads, RowAt, IsWrong;
    var t := Table(RowAt(failures, at), base);
    if k == 0 {
      LeadsNone(t, n, peak);
    } else {
      Filled(base, n, k - 1, failures, at, peak);
      StackedBefore(base, n, k - 1, failures, at);
      WrongAt(failures, at);
      FillOne(t, n, Fill(k - 1, at), Stacked(base, n, k - 1, failures, at), Attempt(at, Mismatch), k - 1, peak);
      assert Fill(k, at) == Fill(k - 1, at) + [Compare(Attempt(at, Mismatch))];
    }
  }

  lemma FillOne(
    t: Table, n: nat, es: seq<Step>, p: map<nat, (Identity, Attempt)>, a: Attempt, wrong: int, peak: nat)
    requires Leads(t, n, es, t.(pending := p), wrong, peak) && Before(p, n + |es|) && |p| < peak
    requires IsWrong((t.row, a))
    ensures Leads(t, n, es + [Compare(a)], t.(pending := p[n + |es| := (t.row, a)]), wrong + 1, peak)
  {
    hide Leads, IsWrong;
    var t1, m := t.(pending := p), n + |es|;
    OneMore(p, m, (t.row, a));
    LeadsOne(t1, m, Compare(a), peak);
    LeadsPlus(t, n, es, t1, wrong, [Compare(a)], t.(pending := p[m := (t.row, a)]), 1, peak);
  }

  lemma WrongAt(failures: nat, at: int)
    requires failures < MAX_FAILURES
    ensures IsWrong((RowAt(failures, at), Attempt(at, Mismatch)))
  {}

  /** Recording an attempt that saw so many failures leaves one more in the row. */
  lemma RecordedAt(row: Identity, failures: nat, at: int)
    requires failures < MAX_FAILURES
    ensures Recorded(row, RowAt(failures, at), Attempt(at, Mismatch)) == RowAt(failures + 1, at)
  {}

  lemma RecordNewest(
    row: Identity, base: map<nat, (Identity, Attempt)>, n: nat, k: nat, failures: nat, m: nat, at: int, peak: nat)
    requires Before(base, n) && failures < MAX_FAILURES && 0 < k && |base| + k <= peak
    ensures Leads(Table(row, Stacked(base, n, k, failures, at)), m, [Record(n + k - 1)],
                  Table(RowAt(failures + 1, at), Stacked(base, n, k - 1, failures, at)), 0, peak)
  {
    hide Leads, Recorded, RowAt, Advance;
    var p, c, x := Stacked(base, n, k - 1, failures, at), n + k - 1, (RowAt(failures, at), Attempt(at, Mismatch));
    assert Stacked(base, n, k, failures, at) == p[c := x];
    StackedBefore(base, n, k - 1, failures, at);
    hide Stacked;
    RecordedAt(row, failures, at);
    OneMore(p, c, x);
    RecordLast(row, p, c, x, m);
    LeadsOne(Table(row, p[c := x]), m, Record(c), peak);
  }

  lemma RecordLast(row: Identity, p: map<nat, (Identity, Attempt)>, c: nat, x: (Identity, Attempt), m: nat)
    requires Before(p, c)
    ensures Advance(Table(row, p[c := x]), m, Record(c)) == Table(Recorded(row, x.0, x.1), p)
  {
    hide Recorded;
    OneMore(p, c, x);
  }

  /** A spree ends with the row locked, if it had a slot, and the other attempts still under way. */
  lemma {:induction false} Spreed(
    base: map<nat, (Identity, Attempt)>, k: nat, failures: nat, n: nat, at: int, peak: nat)
    requires Before(base, n) && failures <= MAX_FAILURES && |base| + k <= peak
    ensures Leads(Table(RowAt(failures, at), base), n, Spree(k, failures, n, at),
                  Table(RowAt(if k == 0 then failures else MAX_FAILURES, at), base),
                  Ways(k + 1, MAX_FAILURES - failures) - 1, peak)
    decreases MAX_FAILURES - failures, 1, 0
  {
    hide Leads, Fill, RowAt, Ways;
    var t := Table(RowAt(failures, at), base);
    AWay(k + 1, MAX_FAILURES - failures);
    if failures == MAX_FAILURES {
      LeadsNone(t, n, peak);
    } else {
      Filled(base, n, k, failures, at, peak);
      Drained(base, k, failures, n, k, at, peak);
      FillSize(k, at);
      LeadsPlus(t, n, Fill(k, at), t.(pending := Stacked(base, n, k, failures, at)), k, Drain(k, failures, n, k, at),
                Table(RowAt(if k == 0 then failures else MAX_FAILURES, at), base),
                Ways(k + 1, MAX_FAILURES - failures) - 1 - k, peak);
    }
  }

  lemma FillSize(k: nat, at: int)
    ensures |Fill(k, at)| == k
  {}

  /** There is at least one choice, and none of size zero but that. */
  lemma {:induction false} AWay(n: nat, size: nat)
    requires n > 0
    ensures Ways(n, size) >= 1 && Ways(n, 0) == 1 && Ways(1, size) == 1
    ensures size > 0 ==> Ways(n, size) >= n
    decreases n + size
  {
    if size > 0 {
      AWay(n, size - 1);
      if n > 1 {
        AWay(n - 1, size);
      }
    }
  }

  lemma {:induction false} Drained(
    base: map<nat, (Identity, Attempt)>, k: nat, failures: nat, n: nat, i: nat, at: int, peak: nat)
    requires Before(base, n) && failures < MAX_FAILURES && i <= k && |base| + k <= peak
    ensures Ways(i + 1, MAX_FAILURES - failures) >= i + 1
    ensures Leads(Table(RowAt(failures, at), Stacked(base, n, k, failures, at)), n + k,
                  Drain(k, failures, n, i, at),
                  Table(RowAt(if i == 0 then failures else MAX_FAILURES, at), Stacked(base, n, k - i, failures, at)),
                  Ways(i + 1, MAX_FAILURES - failures) - 1 - i, peak)
    decreases MAX_FAILURES - failures, 0, i
  {
    hide Leads, RowAt, Stacked, Spree, Drain, Ways;
    var t := Table(RowAt(failures, at), Stacked(base, n, k, failures, at));
    var size := MAX_FAILURES - failures;
    AWay(i + 1, size);
    DrainOne(k, failures, n, i, at);
    if i == 0 {
      StackedBefore(base, n, k, failures, at);
      LeadsNone(t, n + k, peak);
    } else {
      Drained(base, k, failures, n, i - 1, at, peak);
      var before := Drain(k, failures, n, i - 1, at);
      var row := RowAt(if i == 1 then failures else MAX_FAILURES, at);
      var t1 := Table(row, Stacked(base, n, k - (i - 1), failures, at));
      var left := Stacked(base, n, k - i, failures, at);
      var m := n + k + |before|;
      RecordNewest(row, base, n, k - (i - 1), failures, m, at, peak);
      StackedBefore(base, n, k - i, failures, at);
      Spreed(left, i, failures + 1, m + 1, at, peak);
      LeadsOn(t, n + k, before, t1, Ways(i, size) - i, Record(n + k - i), Table(RowAt(failures + 1, at), left),
              Spree(i, failures + 1, m + 1, at), Table(RowAt(MAX_FAILURES, at), left), Ways(i + 1, size - 1) - 1, peak);
      OneMoreWay(i, size);
    }
  }

  lemma DrainOne(k: nat, failures: nat, n: nat, i: nat, at: int)
    requires failures < MAX_FAILURES && i <= k
    ensures Drain(k, failures, n, i, at) ==
            if i == 0 then []
            else
              var before := Drain(k, failures, n, i - 1, at);
              before + [Record(n + k - i)] + Spree(i, failures + 1, n + k + |before| + 1, at)
  {}

  lemma OneMoreWay(n: nat, size: nat)
    requires size > 0
    ensures Ways(n + 1, size) == Ways(n, size) + Ways(n + 1, size - 1)
  {}

  // ---------------------------------------------------------------------------
  // The bound is reached

  /** With `w` slots, a run at one instant compares exactly "w + 5 over 5" less one. */
  lemma BoundIsReached(w: nat, at: int)
    ensures var es := Spree(w, 0, 0, at);
            && Overlap(es, 0, |es|, at, w)
            && 120 * (WrongCompares(es, 0, |es|) + 1) == (w + 1) * (w + 2) * (w + 3) * (w + 4) * (w + 5)
  {
    var es, t := Spree(w, 0, 0, at), Table(FRESH, map[]);
    SpreePlays(w, at);
    hide Spree, Play, Misses, Peak, WrongCompares, Reached;
    assert es[..|es|] == es && es[..0] == [];
    PlayReaches(es, |es|);
    PlayReaches(es, 0);
    forall n | 0 <= n <= |es|
      ensures |Reached(es, n).pending| <= w
    {
      PlayReaches(es, n);
      PeakOfPrefix(t, es, n);
    }
    assert Reached(es, 0).pending == map[] by { NothingReached(es); }
    forall n | 0 <= n < |es| && es[n].Compare?
      ensures es[n].attempt == Attempt(at, Mismatch)
    {
      SpreeTries(w, 0, 0, at, es[n]);
    }
  }

  lemma NothingReached(es: seq<Step>)
    ensures Reached(es, 0).pending == map[]
  {}

  lemma SpreePlays(w: nat, at: int)
    ensures var es, t := Spree(w, 0, 0, at), Table(FRESH, map[]);
            && Peak(t, 0, es) <= w
            && 120 * (Misses(t, 0, es) + 1) == (w + 1) * (w + 2) * (w + 3) * (w + 4) * (w + 5)
  {
    hide Ways, Spree, Play, Misses, Peak;
    Spreed(map[], w, 0, 0, at, w);
    WaysClosed(w + 1);
  }

  /** Every attempt of a spree is a wrong password at the one instant. */
  lemma {:induction false} SpreeTries(k: nat, failures: nat, n: nat, at: int, e: Step)
    requires failures <= MAX_FAILURES && e in Spree(k, failures, n, at) && e.Compare?
    ensures e.attempt == Attempt(at, Mismatch)
    decreases MAX_FAILURES - failures, 1, 0
  {
    if e !in Fill(k, at) {
      DrainTries(k, failures, n, k, at, e);
    }
  }

  lemma {:induction false} DrainTries(k: nat, failures: nat, n: nat, i: nat, at: int, e: Step)
    requires failures < MAX_FAILURES && i <= k && e in Drain(k, failures, n, i, at) && e.Compare?
    ensures e.attempt == Attempt(at, Mismatch)
    decreases MAX_FAILURES - failures, 0, i
  {
    hide Spree;
    var before := Drain(k, failures, n, i - 1, at);
    if e in before {
      DrainTries(k, failures, n, i - 1, at, e);
    } else {
      SpreeTries(i, failures + 1, n + k + |before| + 1, at, e);
    }
  }

  /** At most five wrong passwords are compared in any half-open window without a success, as
      long as at most `w` attempts are under way at once. */
  ghost predicate FiveAlways(w: nat) {
    forall es, i: nat, j: nat, from | i <= j <= |es| && Overlap(es, i, j, from, w) ::
      WrongCompares(es, i, j) <= 5
  }

  /** So the bound of five holds exactly when attempts do not overlap. */
  lemma FiveIffOneAtATime(w: nat)
    ensures FiveAlways(w) <==> w <= 1
  {
    hide Overlap, WrongCompares, Spree;
    if w <= 1 {
      forall es, i: nat, j: nat, from | i <= j <= |es| && Overlap(es, i, j, from, w)
        ensures WrongCompares(es, i, j) <= 5
      {
        BoundWithOverlap(es, i, j, from, w);
      }
    } else {
      var es := Spree(w, 0, 0, 0);
      BoundIsReached(w, 0);
      Exceeds(w);
      assert WrongCompares(es, 0, |es|) > 5;
    }
  }

  lemma Exceeds(w: nat)
    requires w >= 2
    ensures (w + 1) * (w + 2) * (w + 3) * (w + 4) * (w + 5) >= 2520
  {
    var p2 := (w + 1) * (w + 2);
    assert p2 >= 3 * 4;
    var p3 := p2 * (w + 3);
    assert p3 >= 12 * 5;
    var p4 := p3 * (w + 4);
    assert p4 >= 60 * 6;
    assert p4 * (w + 5) >= 360 * 7;
  }
}
