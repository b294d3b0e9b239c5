/** Which changes a push may straddle: its rows read before a commit, entries after it
    (internal/controlplane/secret_sets.go, buildSecretSets). */
module TornBundles {
  import opened Wire
  import opened Register
  import opened Replication
  import opened SecretSets
  import opened SetReplication

  /** The sets bound to the host before have the same entries after. */
  ghost predicate EntriesKept(t: SetTables, next: SetTables, host: Uuid) {
    forall id | id in RowsFor(t, host) :: EntriesOf(next, id) == EntriesOf(t, id)
  }

  // ---------------------------------------------------------------------------
  // Changes elsewhere

  /** What a host's row contributes to its bundle. */
  lemma RowInBundle(t: SetTables, host: Uuid, id: Uuid)
    requires id in RowsFor(t, host)
    ensures var r := RowsFor(t, host)[id];
            SecretSet(r.name, r.asUser, r.version, EntriesOf(t, id)) in Bundle(t, host)
  {
    InBundle(t, (host, id));
  }

  lemma BundleIsRow(t: SetTables, host: Uuid, x: SecretSet) returns (id: Uuid)
    requires x in Bundle(t, host)
    ensures id in RowsFor(t, host)
    ensures var r := RowsFor(t, host)[id];
            x == SecretSet(r.name, r.asUser, r.version, EntriesOf(t, id))
  {
    var b :| b in t.bindings && b.0 == host && b.1 in t.sets
             && x == SecretSet(t.sets[b.1].name, t.bindings[b], t.sets[b.1].version, t.sets[b.1].values);
    id := b.1;
    assert b == (host, id);
  }

  /** A mutation touches the rows and entries of one set. */
  lemma OthersKept(t: SetTables, m: Mutation, host: Uuid, id: Uuid)
    requires id != m.id
    ensures var next := Mutate(t, m).tables;
            && EntriesOf(next, id) == EntriesOf(t, id)
            && (id in RowsFor(next, host) <==> id in RowsFor(t, host))
            && (id in RowsFor(t, host) ==> RowsFor(next, host)[id] == RowsFor(t, host)[id])
  {
    var next := Mutate(t, m).tables;
    assert id in next.sets <==> id in t.sets;
    assert id in t.sets ==> next.sets[id] == t.sets[id];
    assert (host, id) in next.bindings <==> (host, id) in t.bindings;
    assert (host, id) in t.bindings ==> next.bindings[(host, id)] == t.bindings[(host, id)];
    hide Mutate;
  }

  /** A mutation leaves the host's bundle as it is exactly when it leaves its rows and their
      entries as they are. */
  lemma BundleKeptIff(t: SetTables, m: Mutation, host: Uuid)
    requires ValidSets(t)
    ensures var next := Mutate(t, m).tables;
            Bundle(next, host) == Bundle(t, host) <==>
            RowsFor(next, host) == RowsFor(t, host) && EntriesKept(t, next, host)
  {
    var next := Mutate(t, m).tables;
    MutateKeepsValid(t, m);
    if RowsFor(next, host) == RowsFor(t, host) && EntriesKept(t, next, host) {
      SameBundle(t, next, host);
      SameBundle(next, t, host);
    }
    if Bundle(next, host) == Bundle(t, host) {
      hide Mutate, Bundle;
      forall id | id in RowsFor(t, host)
        ensures id in RowsFor(next, host) && RowsFor(next, host)[id] == RowsFor(t, host)[id]
        ensures EntriesOf(next, id) == EntriesOf(t, id)
      {
        RowKept(t, m, host, id);
      }
      forall id | id in RowsFor(next, host)
        ensures id in RowsFor(t, host)
      {
        RowNotNew(t, m, host, id);
      }
      hide RowsFor, EntriesOf;
    }
  }

  lemma SameBundle(t: SetTables, next: SetTables, host: Uuid)
    requires RowsFor(next, host) == RowsFor(t, host) && EntriesKept(t, next, host)
    ensures Bundle(t, host) <= Bundle(next, host)
  {
    hide RowsFor, Bundle, EntriesOf;
    forall x | x in Bundle(t, host)
      ensures x in Bundle(next, host)
    {
      var id := BundleIsRow(t, host, x);
      RowInBundle(next, host, id);
    }
  }

  lemma SameName(t: SetTables, host: Uuid, id: Uuid, id': Uuid)
    requires ValidSets(t) && id in RowsFor(t, host) && id' in RowsFor(t, host)
    requires RowsFor(t, host)[id].name == RowsFor(t, host)[id'].name
    ensures id == id'
  {}

  lemma RowKept(t: SetTables, m: Mutation, host: Uuid, id: Uuid)
    requires ValidSets(t) && Bundle(Mutate(t, m).tables, host) == Bundle(t, host) && id in RowsFor(t, host)
    ensures var next := Mutate(t, m).tables;
            && id in RowsFor(next, host) && RowsFor(next, host)[id] == RowsFor(t, host)[id]
            && EntriesOf(next, id) == EntriesOf(t, id)
  {
    hide Mutate, Bundle, RowsFor, EntriesOf, ValidSets;
    var next, r := Mutate(t, m).tables, RowsFor(t, host)[id];
    RowInBundle(t, host, id);
    var id' := BundleIsRow(next, host, SecretSet(r.name, r.asUser, r.version, EntriesOf(t, id)));
    if id' != id {
      if id' != m.id {
        OthersKept(t, m, host, id');
        SameName(t, host, id, id');
      } else {
        OthersKept(t, m, host, id);
        MutateKeepsValid(t, m);
        SameName(next, host, id, id');
      }
    }
  }

  lemma RowNotNew(t: SetTables, m: Mutation, host: Uuid, id: Uuid)
    requires ValidSets(t) && Bundle(Mutate(t, m).tables, host) == Bundle(t, host)
    requires id in RowsFor(Mutate(t, m).tables, host)
    ensures id in RowsFor(t, host)
  {
    hide Mutate, Bundle, RowsFor, EntriesOf, ValidSets;
    var next := Mutate(t, m).tables;
    var r := RowsFor(next, host)[id];
    RowInBundle(next, host, id);
    var id' := BundleIsRow(t, host, SecretSet(r.name, r.asUser, r.version, EntriesOf(next, id)));
    if id' != id {
      if id != m.id {
        OthersKept(t, m, host, id);
      } else {
        OthersKept(t, m, host, id');
        MutateKeepsValid(t, m);
        SameName(next, host, id, id');
      }
    }
  }

  ghost predicate LeavesBundle(t: SetTables, next: SetTables, host: Uuid) {
    (exists m :: next == Mutate(t, m).tables) && Bundle(next, host) == Bundle(t, host)
  }

  /** Every commit after the state numbered `i` was a mutation that left the host's bundle alone. */
  ghost predicate QuietSince(past: seq<SetTables>, i: nat, host: Uuid) {
    i < |past| && forall k | i < k < |past| :: LeavesBundle(past[k - 1], past[k], host)
  }

  lemma {:induction false} QuietKeeps(past: seq<SetTables>, i: nat, j: nat, host: Uuid)
    requires (forall k | 0 <= k < |past| :: ValidSets(past[k])) && QuietSince(past, i, host) && i <= j < |past|
    ensures RowsFor(past[j], host) == RowsFor(past[i], host) && EntriesKept(past[i], past[j], host)
    decreases j
  {
    hide ValidSets, RowsFor, EntriesOf, Bundle, Mutate;
    if i < j {
      QuietKeeps(past, i, j - 1, host);
      assert LeavesBundle(past[j - 1], past[j], host);
      var m :| past[j] == Mutate(past[j - 1], m).tables;
      BundleKeptIff(past[j - 1], m, host);
    }
  }

  /** At each of the run's entry reads for the host, its bundle has been the same since the
      rows of that push were read. */
  ghost predicate QuietRun(open: Opener, host: Uuid, t: SetTables, es: seq<SetStep>) {
    forall n | 0 <= n < |es| && es[n].ReadEntries? ::
      QuietRead(RunSets(open, host, InitSets(t), es[..n]), es[n].handler, host)
  }

  ghost predicate QuietRead(w: SetWorld, handler: nat, host: Uuid) {
    handler in w.builds && w.builds[handler].host == host ==> QuietSince(w.past, w.builds[handler].first, host)
  }

  lemma QuietReadIsStill(open: Opener, host: Uuid, w: SetWorld, e: SetStep)
    requires SetInv(open, host, w, false) && e.ReadEntries? && QuietRead(w, e.handler, host)
    ensures ReadsStill(host, w, e)
  {
    hide ValidSets, QuietSince, RowsFor, EntriesOf, StampOk, StoreOk;
    if e.handler in w.builds && w.builds[e.handler].host == host && e.id in w.builds[e.handler].rows {
      var first := w.builds[e.handler].first;
      QuietKeeps(w.past, first, |w.past| - 1, host);
    }
  }

  /** If no commit between the reads of a push changed its host's bundle, a store is empty and not
      ready, or answers exactly as the tables of some committed state do. */
  lemma QuietRunsAreOnceCurrent(open: Opener, host: Uuid, t: SetTables, es: seq<SetStep>)
    requires ValidSets(t) && QuietRun(open, host, t, es)
    ensures OnceCurrent(RunSets(open, host, InitSets(t), es), host)
  {
    hide ValidSets, SetInv, QuietRead, OnceCurrent;
    forall n | 0 <= n < |es|
      ensures ReadsStill(host, RunSets(open, host, InitSets(t), es[..n]), es[n])
    {
      hide RunSets, InitSets;
      RunKeepsSetInv(open, host, t, es[..n], false);
      if es[n].ReadEntries? {
        QuietReadIsStill(open, host, RunSets(open, host, InitSets(t), es[..n]), es[n]);
      }
    }
    hide ReadsStill, RunSets;
    StillRunsAreOnceCurrent(open, host, t, es);
  }

  // ---------------------------------------------------------------------------
  // One mutation

  /** The mutation changes the entries of a set bound to the host, and the row with them. */
  predicate Tears(t: SetTables, m: Mutation, host: Uuid) {
    && m.id in RowsFor(t, host)
    && var row := t.sets[m.id];
       match m
       case UpsertEntry(id, key, value, now) =>
         key != "" && !(key in row.values && row.values[key] == value) && now != row.version
       case DeleteEntry(id, key, now) => key in row.values && now != row.version
       case DeleteSet(id) => row.values != map[]
       case _ => false
  }

  ghost predicate OnlyCommits(es: seq<SetStep>, next: SetTables) {
    forall e | e in es && e.CommitSets? :: e.next == next
  }

  /** Whatever the handlers and the network do, as long as nothing but the mutation is
      committed, the store is empty or answers as the tables did before or do after it. */
  ghost predicate AlwaysOnceCurrent(open: Opener, host: Uuid, t: SetTables, m: Mutation) {
    forall es | OnlyCommits(es, Mutate(t, m).tables) :: OnceCurrent(RunSets(open, host, InitSets(t), es), host)
  }

  lemma {:induction false} BeforeOrAfter(open: Opener, host: Uuid, t: SetTables, next: SetTables, es: seq<SetStep>)
    requires OnlyCommits(es, next)
    ensures var past := RunSets(open, host, InitSets(t), es).past;
            past[0] == t && forall i | 1 <= i < |past| :: past[i] == next
  {
    if es != [] {
      assert OnlyCommits(es[..|es| - 1], next);
      BeforeOrAfter(open, host, t, next, es[..|es| - 1]);
      assert es[|es| - 1] in es;
      hide StepSets;
    }
  }

  /** A mutation that keeps the entries of the host's sets is never straddled visibly. */
  lemma KeptIsStill(open: Opener, host: Uuid, t: SetTables, next: SetTables, es: seq<SetStep>)
    requires ValidSets(t) && EntriesKept(t, next, host) && OnlyCommits(es, next)
    ensures StillRun(open, host, t, es)
  {
    hide ValidSets, EntriesKept, OnlyCommits;
    forall n | 0 <= n < |es|
      ensures ReadsStill(host, RunSets(open, host, InitSets(t), es[..n]), es[n])
    {
      hide RunSets, InitSets, SetInv;
      assert OnlyCommits(es[..n], next) by { OnlyCommitsBefore(es, n, next); }
      BeforeOrAfter(open, host, t, next, es[..n]);
      RunKeepsSetInv(open, host, t, es[..n], false);
      KeptReadIsStill(open, host, t, next, RunSets(open, host, InitSets(t), es[..n]), es[n]);
    }
    hide ReadsStill, RunSets;
  }

  lemma OnlyCommitsBefore(es: seq<SetStep>, n: nat, next: SetTables)
    requires OnlyCommits(es, next) && n <= |es|
    ensures OnlyCommits(es[..n], next)
  {}

  lemma KeptReadIsStill(open: Opener, host: Uuid, t: SetTables, next: SetTables, w: SetWorld, e: SetStep)
    requires SetInv(open, host, w, false) && EntriesKept(t, next, host)
    requires w.past[0] == t && forall i | 1 <= i < |w.past| :: w.past[i] == next
    ensures ReadsStill(host, w, e)
  {
    hide ValidSets, RowsFor, EntriesOf, StampOk, StoreOk;
  }

  /** The rows and entries of one set only may differ, and the rows do not. */
  ghost predicate OneSetMoves(t: SetTables, next: SetTables, host: Uuid, id: Uuid) {
    && RowsFor(next, host) == RowsFor(t, host)
    && forall other | other != id :: EntriesOf(next, other) == EntriesOf(t, other)
  }

  /** The state the entries of the set were read from. */
  lemma ReadFrom(past: seq<SetTables>, host: Uuid, i: nat, entries: map<Uuid, Entries>, id: Uuid) returns (j: nat)
    requires Mixed(past, host, i, entries, false)
    ensures i <= j < |past| && (id in entries ==> entries[id] == EntriesOf(past[j], id))
  {
    hide EntriesOf, RowsFor;
    j := i;
    if id in entries {
      assert ReadSince(past, i, id, entries[id], false);
      j :| i <= j < |past| && entries[id] == EntriesOf(past[j], id);
    }
  }

  /** With equal rows, a build that straddled a change of one set is the bundle of the state
      that set was read from. */
  lemma MixedIsBundle(
    past: seq<SetTables>, host: Uuid, next: SetTables, id: Uuid, i: nat, entries: map<Uuid, Entries>)
    returns (j: nat)
    requires past != [] && OneSetMoves(past[0], next, host, id) && forall k | 1 <= k < |past| :: past[k] == next
    requires Mixed(past, host, i, entries, false)
    ensures j < |past| && Assembled(RowsFor(past[i], host), entries) == Bundle(past[j], host)
  {
    hide RowsFor, EntriesOf, Bundle, Assembled;
    j := ReadFrom(past, host, i, entries, id);
    forall other | other in entries && other != id
      ensures entries[other] == EntriesOf(past[j], other)
    {
      assert ReadSince(past, i, other, entries[other], false);
    }
    AssembledIsBundle(past[j], host, entries);
  }

  lemma OneSetIsCurrent(host: Uuid, t: SetTables, next: SetTables, id: Uuid, w: SetWorld)
    requires OneSetMoves(t, next, host, id) && HoldsBuilt(w, host, false)
    requires w.past != [] && w.past[0] == t && forall i | 1 <= i < |w.past| :: w.past[i] == next
    ensures OnceCurrent(w, host)
  {
    hide Answers, RowsFor, EntriesOf, Bundle, Assembled, OneSetMoves, ReadSince;
    if w.store != EMPTY_STORE {
      var i: nat, entries :| Mixed(w.past, host, i, entries, false)
                             && Answers(Assembled(RowsFor(w.past[i], host), entries), w.store.cell.value);
      var j := MixedIsBundle(w.past, host, next, id, i, entries);
    }
  }

  /** A mutation that does not tear keeps the entries of the host's sets, or its rows. */
  lemma WholeKeeps(t: SetTables, m: Mutation, host: Uuid)
    requires !Tears(t, m, host)
    ensures EntriesKept(t, Mutate(t, m).tables, host) || OneSetMoves(t, Mutate(t, m).tables, host, m.id)
  {
    var next := Mutate(t, m).tables;
    if m.id in RowsFor(t, host) && EntriesOf(next, m.id) != EntriesOf(t, m.id) {
      SameRow(t, m, host);
    }
    hide Mutate, Tears, RowsFor, EntriesOf;
    forall other | other != m.id
      ensures EntriesOf(next, other) == EntriesOf(t, other)
      ensures other in RowsFor(next, host) <==> other in RowsFor(t, host)
      ensures other in RowsFor(t, host) ==> RowsFor(next, host)[other] == RowsFor(t, host)[other]
    {
      OthersKept(t, m, host, other);
    }
  }

  lemma SameRow(t: SetTables, m: Mutation, host: Uuid)
    requires !Tears(t, m, host) && m.id in RowsFor(t, host)
    requires EntriesOf(Mutate(t, m).tables, m.id) != EntriesOf(t, m.id)
    ensures var next := Mutate(t, m).tables;
            m.id in RowsFor(next, host) && RowsFor(next, host)[m.id] == RowsFor(t, host)[m.id]
  {}

  lemma WholeIsCurrent(open: Opener, host: Uuid, t: SetTables, m: Mutation, es: seq<SetStep>)
    requires ValidSets(t) && !Tears(t, m, host) && OnlyCommits(es, Mutate(t, m).tables)
    ensures OnceCurrent(RunSets(open, host, InitSets(t), es), host)
  {
    hide ValidSets, Tears, EntriesKept, OneSetMoves, OnlyCommits, OnceCurrent, HoldsBuilt, RunSets, Mutate;
    var next := Mutate(t, m).tables;
    WholeKeeps(t, m, host);
    if EntriesKept(t, next, host) {
      KeptIsStill(open, host, t, next, es);
      StillRunsAreOnceCurrent(open, host, t, es);
    } else {
      StoreIsEmptyOrMixed(open, host, t, es);
      BeforeOrAfter(open, host, t, next, es);
      OneSetIsCurrent(host, t, next, m.id, RunSets(open, host, InitSets(t), es));
    }
  }

  // ---------------------------------------------------------------------------
  // The run that tears

  /** The rows from before, the entries from after. */
  function Straddling(t: SetTables, next: SetTables, host: Uuid): set<SecretSet> {
    Assembled(RowsFor(t, host), EntriesAt(next, RowsFor(t, host).Keys))
  }

  lemma TornIsNew(t: SetTables, m: Mutation, host: Uuid)
    requires ValidSets(t) && Tears(t, m, host)
    ensures var next := Mutate(t, m).tables;
            Straddling(t, next, host) != Bundle(t, host) && Straddling(t, next, host) != Bundle(next, host)
  {
    var next, r := Mutate(t, m).tables, RowsFor(t, host)[m.id];
    var x := SecretSet(r.name, r.asUser, r.version, EntriesOf(next, m.id));
    assert x in Straddling(t, next, host);
    TornEntries(t, m, host);
    if x in Bundle(t, host) {
      var id := BundleIsRow(t, host, x);
      SameName(t, host, id, m.id);
    }
    if x in Bundle(next, host) {
      var id := BundleIsRow(next, host, x);
      NotAfter(t, m, host, id, x);
    }
  }

  lemma TornEntries(t: SetTables, m: Mutation, host: Uuid)
    requires Tears(t, m, host)
    ensures EntriesOf(Mutate(t, m).tables, m.id) != EntriesOf(t, m.id)
    ensures var next := Mutate(t, m).tables;
            m.id in RowsFor(next, host) ==> RowsFor(next, host)[m.id].version != RowsFor(t, host)[m.id].version
  {
    var values, next := t.sets[m.id].values, Mutate(t, m).tables;
    if m.UpsertEntry? {
      assert next.sets[m.id].values[m.key] == m.value;
    } else if m.DeleteEntry? {
      assert m.key !in next.sets[m.id].values;
    }
  }

  lemma NotAfter(t: SetTables, m: Mutation, host: Uuid, id: Uuid, x: SecretSet)
    requires ValidSets(t) && Tears(t, m, host) && id in RowsFor(Mutate(t, m).tables, host)
    requires x.name == RowsFor(t, host)[m.id].name && x.version == RowsFor(t, host)[m.id].version
    ensures x.name != RowsFor(Mutate(t, m).tables, host)[id].name
            || x.version != RowsFor(Mutate(t, m).tables, host)[id].version
  {
    hide Mutate, RowsFor, ValidSets, EntriesOf;
    if id == m.id {
      TornEntries(t, m, host);
    } else {
      OthersKept(t, m, host, id);
      if RowsFor(t, host)[id].name == RowsFor(t, host)[m.id].name {
        SameName(t, host, id, m.id);
      }
    }
  }

  function SetsEnvelope(host: Uuid, number: nat, data: Bytes): Envelope
    requires number < NUMBER_LIMIT
  {
    Envelope(SecretSetsKind, number, data, Some(SigningInput(SecretSetsKind, host, number, data)))
  }

  /** One push, straddling the commit, and its delivery. */
  function TornRun(host: Uuid, next: SetTables, ids: seq<Uuid>, data: Bytes): seq<SetStep> {
    [ReadRows(0, host)] + [CommitSets(next)] + Visits(0, ids) + [StampSets(0, data)]
    + [Arrive(SetsEnvelope(host, 1, data))]
  }

  lemma TornRead(open: Opener, host: Uuid, t: SetTables, next: SetTables, ids: seq<Uuid>)
    requires ValidSets(next) && HasKey(t, host) && Elements(ids) == RowsFor(t, host).Keys
    ensures RunSets(open, host, InitSets(t), [ReadRows(0, host)] + [CommitSets(next)] + Visits(0, ids)) ==
            var rows := RowsFor(t, host);
            InitSets(t).(past := [t, next], builds := map[0 := SetBuild(host, 0, rows, EntriesAt(next, rows.Keys))])
  {
    hide ValidSets, RowsFor, EntriesOf, RunSets, Visits;
    var w0, rows := InitSets(t), RowsFor(t, host);
    RunSetsOne(open, host, w0, ReadRows(0, host));
    var w1 := w0.(builds := map[0 := SetBuild(host, 0, rows, map[])]);
    assert AfterRows(w0, 0, host) == w1;
    RunSetsPlus(open, host, w0, [ReadRows(0, host)], [CommitSets(next)]);
    RunSetsOne(open, host, w1, CommitSets(next));
    var w2 := w1.(past := [t] + [next]);
    RunSetsPlus(open, host, w0, [ReadRows(0, host)] + [CommitSets(next)], Visits(0, ids));
    VisitsRead(open, host, w2, 0, ids);
    assert CurrentSets(w2) == next;
    assert w2.builds[0 := w2.builds[0].(entries := EntriesAt(next, rows.Keys))] ==
           map[0 := SetBuild(host, 0, rows, EntriesAt(next, rows.Keys))];
  }

  lemma TornDelivered(open: Opener, host: Uuid, w: SetWorld, data: Bytes)
    requires w.past != [] && 0 in w.builds && w.builds[0].host == host && Stampable(open, host, w.builds[0], data)
    requires w.counters == map[] && w.store == EMPTY_STORE && open(data).Some?
    ensures var w1 := StepSets(open, host, w, StampSets(0, data));
            var w' := StepSets(open, host, w1, Arrive(SetsEnvelope(host, 1, data)));
            w'.past == w.past && w'.store == Store(Cell(1, ByName(open(data).value)), true)
  {
    hide Stampable, ByName;
    var w1 := StepSets(open, host, w, StampSets(0, data));
    assert Stamp(SecretSetsKind, host, 1, data) in w1.stamps;
    assert VerifiesSets(w1.stamps, host, SetsEnvelope(host, 1, data));
  }

  lemma TornRunStores(open: Opener, host: Uuid, t: SetTables, next: SetTables, ids: seq<Uuid>, data: Bytes)
    requires ValidSets(next) && HasKey(t, host) && Elements(ids) == RowsFor(t, host).Keys
    requires Seals(open, data, Straddling(t, next, host))
    ensures var w := RunSets(open, host, InitSets(t), TornRun(host, next, ids, data));
            w.past == [t, next] && w.store == Store(Cell(1, ByName(open(data).value)), true)
  {
    hide ValidSets, RunSets, RowsFor, Visits, EntriesOf, ByName, Assembled;
    var w0 := InitSets(t);
    TornRead(open, host, t, next, ids);
    var es := [ReadRows(0, host)] + [CommitSets(next)] + Visits(0, ids);
    var w := RunSets(open, host, w0, es);
    RunSetsPlus(open, host, w0, es, [StampSets(0, data)]);
    RunSetsPlus(open, host, w0, es + [StampSets(0, data)], [Arrive(SetsEnvelope(host, 1, data))]);
    RunSetsOne(open, host, w, StampSets(0, data));
    RunSetsOne(open, host, StepSets(open, host, w, StampSets(0, data)), Arrive(SetsEnvelope(host, 1, data)));
    TornDelivered(open, host, w, data);
    hide StepSets;
  }

  /** A store answers as one bundle. */
  lemma AnswersOnce(b: set<SecretSet>, b': set<SecretSet>, value: Opened)
    ensures Answers(b, value) && Answers(b', value) ==> b == b'
  {
    if Answers(b, value) && Answers(b', value) {
      forall x
        ensures x in b <==> x in b'
      {}
    }
  }

  /** A set bound to the host changed between the reads of its rows and of its entries: the
      store is left answering as the tables did neither before nor after. */
  lemma TornStore(open: Opener, host: Uuid, t: SetTables, m: Mutation, ids: seq<Uuid>, data: Bytes)
    requires ValidSets(t) && HasKey(t, host) && Tears(t, m, host) && Elements(ids) == RowsFor(t, host).Keys
    requires Seals(open, data, Straddling(t, Mutate(t, m).tables, host))
    ensures var w := RunSets(open, host, InitSets(t), TornRun(host, Mutate(t, m).tables, ids, data));
            w.past == [t, Mutate(t, m).tables] && w.store.ready && !OnceCurrent(w, host)
  {
    hide ValidSets, Tears, Bundle, Mutate, RunSets, RowsFor, EntriesOf, ByName, Answers, Assembled, TornRun, HasKey;
    var next := Mutate(t, m).tables;
    MutateKeepsValid(t, m);
    TornIsNew(t, m, host);
    TornRunStores(open, host, t, next, ids, data);
    var sets := open(data).value;
    AssembledAnswers(t, host, EntriesAt(next, RowsFor(t, host).Keys), sets);
    AnswersOnce(Straddling(t, next, host), Bundle(t, host), ByName(sets));
    AnswersOnce(Straddling(t, next, host), Bundle(next, host), ByName(sets));
  }

  lemma {:induction false} Listing(ids: set<Uuid>) returns (list: seq<Uuid>)
    ensures Elements(list) == ids
  {
    if ids == {} {
      list := [];
    } else {
      var id :| id in ids;
      var rest := Listing(ids - {id});
      list := rest + [id];
      assert Elements(list) == Elements(rest) + {id};
    }
  }

  ghost predicate CanSeal(open: Opener) {
    forall bundle :: Sealable(open, bundle)
  }

  ghost predicate Sealable(open: Opener, bundle: set<SecretSet>) {
    exists data :: Seals(open, data, bundle)
  }

  /** While one mutation is committed, a keyed host's store is always empty or once current
      exactly if the mutation does not change the entries and the version of a set bound to it. */
  lemma AlwaysOnceCurrentIff(open: Opener, host: Uuid, t: SetTables, m: Mutation)
    requires ValidSets(t) && HasKey(t, host) && CanSeal(open)
    ensures AlwaysOnceCurrent(open, host, t, m) <==> !Tears(t, m, host)
  {
    hide ValidSets, Tears, RunSets, Mutate, RowsFor, OnceCurrent, Straddling, Seals;
    var next := Mutate(t, m).tables;
    if Tears(t, m, host) {
      var ids := Listing(RowsFor(t, host).Keys);
      assert Sealable(open, Straddling(t, next, host));
      var data :| Seals(open, data, Straddling(t, next, host));
      TornStore(open, host, t, m, ids, data);
      assert OnlyCommits(TornRun(host, next, ids, data), next);
    } else {
      forall es | OnlyCommits(es, next)
        ensures OnceCurrent(RunSets(open, host, InitSets(t), es), host)
      {
        hide OnlyCommits;
        WholeIsCurrent(open, host, t, m, es);
      }
    }
  }
}
