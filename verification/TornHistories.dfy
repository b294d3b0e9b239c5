/** Bundles put together while any number of changes is committed
    (internal/controlplane/secret_sets.go, buildSecretSets). */
module TornHistories {
  import opened Wire
  import opened Register
  import opened Replication
  import opened SecretSets
  import opened SetReplication
  import opened TornBundles

  /** A history of committed tables in which the host has an encryption key, and a name and a
      version identify the set and the entries it was written with. */
  ghost predicate History(ts: seq<SetTables>, host: Uuid) {
    && ts != []
    && (forall i | 0 <= i < |ts| :: ValidSets(ts[i]) && HasKey(ts[i], host))
    && (forall i, j, id, id' |
          0 <= i < |ts| && 0 <= j < |ts| && id in RowsFor(ts[i], host) && id' in RowsFor(ts[j], host)
          && SameWrite(RowsFor(ts[i], host)[id], RowsFor(ts[j], host)[id']) ::
          id == id' && EntriesOf(ts[i], id) == EntriesOf(ts[j], id'))
  }

  predicate SameWrite(r: Row, r': Row) {
    r.name == r'.name && r.version == r'.version
  }

  /** Sets keep the entries they had when they were bound to the host, bound or not. */
  ghost predicate EntriesStay(ts: seq<SetTables>, host: Uuid) {
    forall i, j | 0 <= i <= j < |ts| :: EntriesKept(ts[i], ts[j], host)
  }

  /** Whatever the handlers and the network do while the history is committed, the store is
      empty or answers as the tables of some committed state do. */
  ghost predicate AlwaysCurrentIn(open: Opener, host: Uuid, ts: seq<SetTables>)
    requires ts != []
  {
    forall es | RunSets(open, host, InitSets(ts[0]), es).past <= ts ::
      OnceCurrent(RunSets(open, host, InitSets(ts[0]), es), host)
  }

  lemma {:induction false} PastGrows(open: Opener, host: Uuid, w: SetWorld, es: seq<SetStep>, n: nat)
    requires w.past != [] && n <= |es|
    ensures RunSets(open, host, w, es[..n]).past <= RunSets(open, host, w, es).past
    decreases |es|
  {
    hide ValidSets;
    if n == |es| {
      assert es[..n] == es;
    } else {
      PastGrows(open, host, w, es[..|es| - 1], n);
      assert es[..|es| - 1][..n] == es[..n];
      hide StepSets;
    }
  }

  lemma StayingReadIsStill(open: Opener, host: Uuid, ts: seq<SetTables>, w: SetWorld, e: SetStep)
    requires SetInv(open, host, w, false) && w.past <= ts && EntriesStay(ts, host)
    ensures ReadsStill(host, w, e)
  {
    hide ValidSets, EntriesKept, StampOk, StoreOk, RowsFor, EntriesOf;
    if e.ReadEntries? && e.handler in w.builds && w.builds[e.handler].host == host {
      var b := w.builds[e.handler];
      assert BuildOk(w.past, b, false);
      assert EntriesKept(ts[b.first], ts[|w.past| - 1], host);
      KeptEntry(ts[b.first], ts[|w.past| - 1], host, e.id);
    }
  }

  lemma KeptEntry(t: SetTables, next: SetTables, host: Uuid, id: Uuid)
    requires EntriesKept(t, next, host)
    ensures id in RowsFor(t, host) ==> EntriesOf(next, id) == EntriesOf(t, id)
  {}

  lemma StayingIsCurrent(open: Opener, host: Uuid, ts: seq<SetTables>, es: seq<SetStep>)
    requires ts != [] && ValidSets(ts[0]) && EntriesStay(ts, host)
    requires RunSets(open, host, InitSets(ts[0]), es).past <= ts
    ensures OnceCurrent(RunSets(open, host, InitSets(ts[0]), es), host)
  {
    hide ValidSets, EntriesStay, OnceCurrent;
    forall n | 0 <= n < |es|
      ensures ReadsStill(host, RunSets(open, host, InitSets(ts[0]), es[..n]), es[n])
    {
      hide RunSets, InitSets, SetInv;
      PastGrows(open, host, InitSets(ts[0]), es, n);
      RunKeepsSetInv(open, host, ts[0], es[..n], false);
      StayingReadIsStill(open, host, ts, RunSets(open, host, InitSets(ts[0]), es[..n]), es[n]);
    }
    hide ReadsStill, RunSets;
    StillRunsAreOnceCurrent(open, host, ts[0], es);
  }

  // ---------------------------------------------------------------------------
  // The run that tears

  function Commits(ts: seq<SetTables>): seq<SetStep> {
    seq(|ts|, i requires 0 <= i < |ts| => CommitSets(ts[i]))
  }

  lemma {:induction false} CommitsCommit(open: Opener, host: Uuid, w: SetWorld, ts: seq<SetTables>)
    requires w.past != [] && forall i | 0 <= i < |ts| :: ValidSets(ts[i])
    ensures RunSets(open, host, w, Commits(ts)) == w.(past := w.past + ts)
  {
    hide ValidSets;
    if ts == [] {
      assert w.past + ts == w.past;
    } else {
      var init, last := ts[..|ts| - 1], ts[|ts| - 1];
      CommitsCommit(open, host, w, init);
      assert Commits(ts)[..|ts| - 1] == Commits(init);
      assert w.past + ts == w.past + init + [last];
    }
  }

  /** The history up to the state numbered `i`, and a push reading its rows. */
  function Until(host: Uuid, ts: seq<SetTables>, i: nat): seq<SetStep>
    requires i < |ts|
  {
    Commits(ts[1..i + 1]) + [ReadRows(0, host)]
  }

  /** The history on to the state numbered `j`, and the push reading the entries. */
  function Since(ts: seq<SetTables>, i: nat, j: nat, ids: seq<Uuid>): seq<SetStep>
    requires i <= j < |ts|
  {
    Commits(ts[i + 1..j + 1]) + Visits(0, ids)
  }

  /** Both, then the push is stamped and delivered. */
  function LongRun(host: Uuid, ts: seq<SetTables>, i: nat, j: nat, ids: seq<Uuid>, data: Bytes): seq<SetStep>
    requires i <= j < |ts|
  {
    Until(host, ts, i) + Since(ts, i, j, ids) + [StampSets(0, data)] + [Arrive(SetsEnvelope(host, 1, data))]
  }

  /** The world with nothing but the states up to the one numbered `j` and one build. */
  ghost function Building(ts: seq<SetTables>, j: nat, b: SetBuild): SetWorld
    requires j < |ts|
  {
    InitSets(ts[0]).(past := ts[..j + 1], builds := map[0 := b])
  }

  lemma RowsRead(open: Opener, host: Uuid, ts: seq<SetTables>, i: nat)
    requires History(ts, host) && i < |ts|
    ensures RunSets(open, host, InitSets(ts[0]), Until(host, ts, i)) ==
            Building(ts, i, SetBuild(host, i, RowsFor(ts[i], host), map[]))
  {
    assert forall k | 0 <= k < |ts| :: ValidSets(ts[k]) && HasKey(ts[k], host);
    hide History, ValidSets, HasKey, RowsFor, RunSets, Commits;
    var w0 := InitSets(ts[0]);
    CommitsCommit(open, host, w0, ts[1..i + 1]);
    var w1 := w0.(past := ts[..i + 1]);
    assert [ts[0]] + ts[1..i + 1] == ts[..i + 1];
    RunSetsPlus(open, host, w0, Commits(ts[1..i + 1]), [ReadRows(0, host)]);
    RunSetsOne(open, host, w1, ReadRows(0, host));
  }

  lemma EntriesRead(open: Opener, host: Uuid, ts: seq<SetTables>, i: nat, j: nat, b: SetBuild, ids: seq<Uuid>)
    requires i <= j < |ts| && (forall k | 0 <= k < |ts| :: ValidSets(ts[k]))
    requires b.entries == map[] && Elements(ids) == b.rows.Keys
    ensures RunSets(open, host, Building(ts, i, b), Since(ts, i, j, ids)) ==
            Building(ts, j, b.(entries := EntriesAt(ts[j], b.rows.Keys)))
  {
    hide ValidSets, EntriesAt, RunSets, Visits, Commits;
    var w, w1 := Building(ts, i, b), Building(ts, j, b);
    CommitsCommit(open, host, w, ts[i + 1..j + 1]);
    assert ts[..i + 1] + ts[i + 1..j + 1] == ts[..j + 1];
    RunSetsPlus(open, host, w, Commits(ts[i + 1..j + 1]), Visits(0, ids));
    VisitsRead(open, host, w1, 0, ids);
  }

  lemma LongRead(open: Opener, host: Uuid, ts: seq<SetTables>, i: nat, j: nat, ids: seq<Uuid>)
    requires History(ts, host) && i <= j < |ts| && Elements(ids) == RowsFor(ts[i], host).Keys
    ensures var rows := RowsFor(ts[i], host);
            RunSets(open, host, InitSets(ts[0]), Until(host, ts, i) + Since(ts, i, j, ids)) ==
            Building(ts, j, SetBuild(host, i, rows, EntriesAt(ts[j], rows.Keys)))
  {
    assert forall k | 0 <= k < |ts| :: ValidSets(ts[k]);
    hide History, ValidSets, RowsFor, RunSets, Until, Since, Building, EntriesAt;
    RowsRead(open, host, ts, i);
    EntriesRead(open, host, ts, i, j, SetBuild(host, i, RowsFor(ts[i], host), map[]), ids);
    RunSetsPlus(open, host, InitSets(ts[0]), Until(host, ts, i), Since(ts, i, j, ids));
  }

  lemma LongRunStores(open: Opener, host: Uuid, ts: seq<SetTables>, i: nat, j: nat, ids: seq<Uuid>, data: Bytes)
    requires History(ts, host) && i <= j < |ts| && Elements(ids) == RowsFor(ts[i], host).Keys
    requires Seals(open, data, Straddling(ts[i], ts[j], host))
    ensures var w := RunSets(open, host, InitSets(ts[0]), LongRun(host, ts, i, j, ids, data));
            w.past == ts[..j + 1] && w.store == Store(Cell(1, ByName(open(data).value)), true)
  {
    hide History, RunSets, RowsFor, Until, Since, EntriesOf, ByName, Assembled;
    LongRead(open, host, ts, i, j, ids);
    var w0, es := InitSets(ts[0]), Until(host, ts, i) + Since(ts, i, j, ids);
    var w := RunSets(open, host, w0, es);
    RunSetsPlus(open, host, w0, es, [StampSets(0, data)]);
    RunSetsPlus(open, host, w0, es + [StampSets(0, data)], [Arrive(SetsEnvelope(host, 1, data))]);
    RunSetsOne(open, host, w, StampSets(0, data));
    RunSetsOne(open, host, StepSets(open, host, w, StampSets(0, data)), Arrive(SetsEnvelope(host, 1, data)));
    TornDelivered(open, host, w, data);
    hide StepSets;
  }

  /** Rows and entries of states between which entries changed are the bundle of no state. */
  lemma TornIsNowhere(ts: seq<SetTables>, host: Uuid, i: nat, j: nat, k: nat)
    requires History(ts, host) && i < |ts| && j < |ts| && k < |ts| && !EntriesKept(ts[i], ts[j], host)
    ensures Straddling(ts[i], ts[j], host) != Bundle(ts[k], host)
  {
    hide ValidSets, EntriesOf, Bundle;
    var rows := RowsFor(ts[i], host);
    var id :| id in rows && EntriesOf(ts[j], id) != EntriesOf(ts[i], id);
    var x := SecretSet(rows[id].name, rows[id].asUser, rows[id].version, EntriesOf(ts[j], id));
    assert x in Straddling(ts[i], ts[j], host);
    if x in Bundle(ts[k], host) {
      var id' := BundleIsRow(ts[k], host, x);
    }
  }

  lemma TornHistory(open: Opener, host: Uuid, ts: seq<SetTables>, i: nat, j: nat, ids: seq<Uuid>, data: Bytes)
    requires History(ts, host) && i <= j < |ts| && !EntriesKept(ts[i], ts[j], host)
    requires Elements(ids) == RowsFor(ts[i], host).Keys && Seals(open, data, Straddling(ts[i], ts[j], host))
    ensures var w := RunSets(open, host, InitSets(ts[0]), LongRun(host, ts, i, j, ids, data));
            w.past <= ts && w.store.ready && !OnceCurrent(w, host)
  {
    assert ValidSets(ts[i]);
    hide History, ValidSets, EntriesKept, Bundle, RunSets, RowsFor, EntriesOf, ByName, Answers, Assembled, LongRun;
    LongRunStores(open, host, ts, i, j, ids, data);
    var sets := open(data).value;
    AssembledAnswers(ts[i], host, EntriesAt(ts[j], RowsFor(ts[i], host).Keys), sets);
    forall k | 0 <= k <= j
      ensures !Answers(Bundle(ts[k], host), ByName(sets))
    {
      TornIsNowhere(ts, host, i, j, k);
      AnswersOnce(Straddling(ts[i], ts[j], host), Bundle(ts[k], host), ByName(sets));
    }
  }

  /** While any history is committed, however long, a keyed host's store is always empty or once
      current exactly if no set changes its entries after it was bound to the host. */
  lemma AlwaysCurrentIff(open: Opener, host: Uuid, ts: seq<SetTables>)
    requires History(ts, host) && CanSeal(open)
    ensures AlwaysCurrentIn(open, host, ts) <==> EntriesStay(ts, host)
  {
    assert ValidSets(ts[0]);
    hide History, ValidSets, EntriesKept, RunSets, RowsFor, OnceCurrent, Straddling, Seals, LongRun;
    if EntriesStay(ts, host) {
      forall es | RunSets(open, host, InitSets(ts[0]), es).past <= ts
        ensures OnceCurrent(RunSets(open, host, InitSets(ts[0]), es), host)
      {
        StayingIsCurrent(open, host, ts, es);
      }
    } else {
      var i, j :| 0 <= i <= j < |ts| && !EntriesKept(ts[i], ts[j], host);
      var ids := Listing(RowsFor(ts[i], host).Keys);
      assert Sealable(open, Straddling(ts[i], ts[j], host));
      var data :| Seals(open, data, Straddling(ts[i], ts[j], host));
      TornHistory(open, host, ts, i, j, ids, data);
    }
  }
}
