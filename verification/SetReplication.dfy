/** Secret sets with handlers interleaved at every statement of a push, and a network that
    drops, repeats, reorders and invents envelopes (internal/controlplane/secret_sets.go,
    internal/daemon/client.go).

    A push selects the rows of the host's sets, then the entries of one set at a time, outside
    any transaction, and then seals and stamps what it has put together. */
module SetReplication {
  import opened Wire
  import opened Register
  import opened Replication
  import opened SecretSets

  /** What SetsForHost selects of a bound set. */
  datatype Row = Row(name: string, asUser: string, version: nat)

  type Entries = map<string, string>

  function RowsFor(t: SetTables, host: Uuid): map<Uuid, Row> {
    map id | id in t.sets && (host, id) in t.bindings ::
      Row(t.sets[id].name, t.bindings[(host, id)], t.sets[id].version)
  }

  /** GetSetEntries: a deleted set has none. */
  function EntriesOf(t: SetTables, id: Uuid): Entries {
    if id in t.sets then t.sets[id].values else map[]
  }

  function Assembled(rows: map<Uuid, Row>, entries: map<Uuid, Entries>): set<SecretSet>
    requires entries.Keys == rows.Keys
  {
    set id | id in rows :: SecretSet(rows[id].name, rows[id].asUser, rows[id].version, entries[id])
  }

  /** A build under way: the rows, and the entries of the sets visited so far. `first` is the
      committed state the rows were read from; no step reads it. */
  datatype SetBuild = SetBuild(host: Uuid, first: nat, rows: map<Uuid, Row>, entries: map<Uuid, Entries>)

  /** The control plane, and the store of one host's daemon. `past` lists the committed
      tables, the current ones last; `builds` are those of the running handlers. */
  datatype SetWorld = SetWorld(
    past: seq<SetTables>,
    builds: map<nat, SetBuild>,
    counters: map<Uuid, nat>,
    stamps: set<Stamp>,
    store: Store)

  datatype SetStep =
    | CommitSets(next: SetTables)
    | ReadRows(handler: nat, host: Uuid)
    | ReadEntries(handler: nat, id: Uuid)
    | StampSets(handler: nat, data: Bytes)
    | Abandon(handler: nat)
    | StampOther(stamp: Stamp)          // a snapshot signed with the same key
    | Arrive(env: Envelope)
    | Restart                           // the store is not persisted

  ghost function CurrentSets(w: SetWorld): SetTables
    requires w.past != []
  {
    w.past[|w.past| - 1]
  }

  const EMPTY_STORE := Store(Cell(0, map[]), false)

  predicate HasKey(t: SetTables, host: Uuid) {
    host in t.hosts && t.hosts[host]
  }

  /** Rows are read for hosts with an encryption key. */
  ghost function AfterRows(w: SetWorld, handler: nat, host: Uuid): SetWorld
    requires w.past != []
  {
    var t := CurrentSets(w);
    if handler in w.builds || !HasKey(t, host) then w
    else w.(builds := w.builds[handler := SetBuild(host, |w.past| - 1, RowsFor(t, host), map[])])
  }

  ghost function AfterEntries(w: SetWorld, handler: nat, id: Uuid): SetWorld
    requires w.past != []
  {
    if handler !in w.builds || id !in w.builds[handler].rows || id in w.builds[handler].entries then w
    else
      var b := w.builds[handler];
      w.(builds := w.builds[handler := b.(entries := b.entries[id := EntriesOf(CurrentSets(w), id)])])
  }

  /** A document stamped for the daemon's host opens, with the daemon's key, to a listing of
      the sets put together. */
  ghost predicate Stampable(open: Opener, host: Uuid, b: SetBuild, data: Bytes) {
    b.entries.Keys == b.rows.Keys && (b.host == host ==> Seals(open, data, Assembled(b.rows, b.entries)))
  }

  ghost function AfterStamp(open: Opener, host: Uuid, w: SetWorld, handler: nat, data: Bytes): (w': SetWorld)
    ensures w'.past == w.past
  {
    if handler !in w.builds || !Stampable(open, host, w.builds[handler], data) then w
    else
      var b := w.builds[handler];
      var n := (if b.host in w.counters then w.counters[b.host] else 0) + 1;
      if n > BIGINT_MAX then w.(builds := w.builds - {handler})
      else
        w.(builds := w.builds - {handler}, counters := w.counters[b.host := n],
           stamps := w.stamps + {Stamp(SecretSetsKind, b.host, n, data)})
  }

  ghost function StepSets(open: Opener, host: Uuid, w: SetWorld, e: SetStep): (w': SetWorld)
    requires w.past != []
    ensures w'.past == if e.CommitSets? && ValidSets(e.next) then w.past + [e.next] else w.past
  {
    match e
    case CommitSets(next) => if ValidSets(next) then w.(past := w.past + [next]) else w
    case ReadRows(handler, h) => AfterRows(w, handler, h)
    case ReadEntries(handler, id) => AfterEntries(w, handler, id)
    case StampSets(handler, data) => AfterStamp(open, host, w, handler, data)
    case Abandon(handler) => w.(builds := w.builds - {handler})
    case StampOther(s) =>
      if s.kind == SnapshotKind && 1 <= s.number < NUMBER_LIMIT then w.(stamps := w.stamps + {s}) else w
    case Arrive(env) =>
      if env.kind == SecretSetsKind && VerifiesSets(w.stamps, host, env)
      then w.(store := Receive(open, w.store, env.number, env.data)) else w
    case Restart => w.(store := EMPTY_STORE)
  }

  ghost function RunSets(open: Opener, host: Uuid, w: SetWorld, es: seq<SetStep>): (w': SetWorld)
    requires w.past != []
    ensures w'.past != []
  {
    if es == [] then w else StepSets(open, host, RunSets(open, host, w, es[..|es| - 1]), es[|es| - 1])
  }

  ghost function InitSets(t: SetTables): SetWorld {
    SetWorld([t], map[], map[], {}, EMPTY_STORE)
  }

  // ---------------------------------------------------------------------------
  // The invariant

  /** Entries of the set as they were at the state numbered `i` or, unless `still`, a later one. */
  ghost predicate ReadSince(past: seq<SetTables>, i: nat, id: Uuid, entries: Entries, still: bool) {
    exists j :: i <= j < |past| && (still ==> j == i) && entries == EntriesOf(past[j], id)
  }

  ghost predicate BuildOk(past: seq<SetTables>, b: SetBuild, still: bool) {
    && b.first < |past| && b.rows == RowsFor(past[b.first], b.host) && b.entries.Keys <= b.rows.Keys
    && forall id | id in b.entries :: ReadSince(past, b.first, id, b.entries[id], still)
  }

  /** The rows of the state numbered `i`, with the entries each set had then or later. */
  ghost predicate Mixed(past: seq<SetTables>, host: Uuid, i: nat, entries: map<Uuid, Entries>, still: bool) {
    && i < |past| && entries.Keys == RowsFor(past[i], host).Keys
    && forall id | id in entries :: ReadSince(past, i, id, entries[id], still)
  }

  ghost predicate OnceBuilt(past: seq<SetTables>, host: Uuid, bundle: set<SecretSet>, still: bool) {
    exists i: nat, entries ::
      Mixed(past, host, i, entries, still) && bundle == Assembled(RowsFor(past[i], host), entries)
  }

  ghost predicate StampOk(open: Opener, host: Uuid, past: seq<SetTables>, s: Stamp, still: bool) {
    && 1 <= s.number < NUMBER_LIMIT
    && (s.kind == SecretSetsKind && s.host == host ==>
          open(s.data).Some? && OnceBuilt(past, host, Elements(open(s.data).value), still))
  }

  ghost predicate StoreOk(host: Uuid, past: seq<SetTables>, store: Store, still: bool) {
    || store == EMPTY_STORE
    || (store.ready && exists sets :: store.cell.value == ByName(sets) && OnceBuilt(past, host, Elements(sets), still))
  }

  /** Everything built, stamped and stored for the host comes from the tables; with `still`, from
      one state of them. */
  ghost predicate SetInv(open: Opener, host: Uuid, w: SetWorld, still: bool) {
    && w.past != []
    && (forall i | 0 <= i < |w.past| :: ValidSets(w.past[i]))
    && (forall k | k in w.builds && w.builds[k].host == host :: BuildOk(w.past, w.builds[k], still))
    && (forall s | s in w.stamps :: StampOk(open, host, w.past, s, still))
    && StoreOk(host, w.past, w.store, still)
  }

  /** The step reads no entries that changed since its handler read the rows. */
  ghost predicate ReadsStill(host: Uuid, w: SetWorld, e: SetStep)
    requires w.past != []
  {
    e.ReadEntries? && e.handler in w.builds && w.builds[e.handler].host == host && e.id in w.builds[e.handler].rows ==>
      var first := w.builds[e.handler].first;
      first < |w.past| && EntriesOf(CurrentSets(w), e.id) == EntriesOf(w.past[first], e.id)
  }

  lemma ReadSinceStays(past: seq<SetTables>, past': seq<SetTables>, i: nat, id: Uuid, entries: Entries, still: bool)
    requires past <= past' && ReadSince(past, i, id, entries, still)
    ensures ReadSince(past', i, id, entries, still)
  {
    var j :| i <= j < |past| && (still ==> j == i) && entries == EntriesOf(past[j], id);
    assert past'[j] == past[j];
  }

  lemma BuildStays(past: seq<SetTables>, past': seq<SetTables>, b: SetBuild, still: bool)
    requires past <= past' && BuildOk(past, b, still)
    ensures BuildOk(past', b, still)
  {
    hide ReadSince, RowsFor;
    forall id | id in b.entries
      ensures ReadSince(past', b.first, id, b.entries[id], still)
    {
      ReadSinceStays(past, past', b.first, id, b.entries[id], still);
    }
  }

  lemma OnceBuiltStays(
    past: seq<SetTables>, past': seq<SetTables>, host: Uuid, bundle: set<SecretSet>, still: bool)
    requires past <= past' && OnceBuilt(past, host, bundle, still)
    ensures OnceBuilt(past', host, bundle, still)
  {
    hide ReadSince, RowsFor, Assembled;
    var i: nat, entries :| Mixed(past, host, i, entries, still) && bundle == Assembled(RowsFor(past[i], host), entries);
    forall id | id in entries
      ensures ReadSince(past', i, id, entries[id], still)
    {
      ReadSinceStays(past, past', i, id, entries[id], still);
    }
    assert past'[i] == past[i];
    assert Mixed(past', host, i, entries, still);
  }

  lemma CommitKeeps(open: Opener, host: Uuid, w: SetWorld, next: SetTables, still: bool)
    requires SetInv(open, host, w, still) && ValidSets(next)
    ensures SetInv(open, host, w.(past := w.past + [next]), still)
  {
    hide ValidSets, BuildOk, OnceBuilt;
    var past' := w.past + [next];
    forall k | k in w.builds && w.builds[k].host == host
      ensures BuildOk(past', w.builds[k], still)
    {
      BuildStays(w.past, past', w.builds[k], still);
    }
    forall bundle | OnceBuilt(w.past, host, bundle, still)
      ensures OnceBuilt(past', host, bundle, still)
    {
      OnceBuiltStays(w.past, past', host, bundle, still);
    }
  }

  lemma RowsKeep(open: Opener, host: Uuid, w: SetWorld, handler: nat, h: Uuid, still: bool)
    requires SetInv(open, host, w, still)
    ensures SetInv(open, host, AfterRows(w, handler, h), still)
  {
    hide ValidSets, RowsFor, ReadSince, StampOk, StoreOk;
    assert BuildOk(w.past, SetBuild(h, |w.past| - 1, RowsFor(CurrentSets(w), h), map[]), still);
    hide BuildOk;
  }

  lemma EntriesKeep(open: Opener, host: Uuid, w: SetWorld, handler: nat, id: Uuid, still: bool)
    requires SetInv(open, host, w, still) && (still ==> ReadsStill(host, w, ReadEntries(handler, id)))
    ensures SetInv(open, host, AfterEntries(w, handler, id), still)
  {
    hide ValidSets, StampOk, StoreOk, BuildOk, EntriesOf;
    if handler in w.builds && w.builds[handler].host == host && id in w.builds[handler].rows {
      OneMoreEntry(w.past, w.builds[handler], id, still);
    }
  }

  lemma OneMoreEntry(past: seq<SetTables>, b: SetBuild, id: Uuid, still: bool)
    requires past != [] && BuildOk(past, b, still) && id in b.rows
    requires still ==> EntriesOf(past[|past| - 1], id) == EntriesOf(past[b.first], id)
    ensures BuildOk(past, b.(entries := b.entries[id := EntriesOf(past[|past| - 1], id)]), still)
  {
    assert ReadSince(past, b.first, id, EntriesOf(past[|past| - 1], id), still) by {
      var j := if still then b.first else |past| - 1;
      assert b.first <= j < |past| && EntriesOf(past[|past| - 1], id) == EntriesOf(past[j], id);
    }
    hide ReadSince, EntriesOf, RowsFor;
  }

  lemma StampKeeps(open: Opener, host: Uuid, w: SetWorld, handler: nat, data: Bytes, still: bool)
    requires SetInv(open, host, w, still)
    ensures SetInv(open, host, AfterStamp(open, host, w, handler, data), still)
  {
    hide ValidSets, BuildOk, OnceBuilt, StoreOk, Assembled;
    if handler in w.builds && w.builds[handler].host == host && Stampable(open, host, w.builds[handler], data) {
      BuiltOnce(w.past, w.builds[handler], still);
    }
  }

  /** A finished build is the rows of one state with entries read since. */
  lemma BuiltOnce(past: seq<SetTables>, b: SetBuild, still: bool)
    requires BuildOk(past, b, still) && b.entries.Keys == b.rows.Keys
    ensures OnceBuilt(past, b.host, Assembled(b.rows, b.entries), still)
  {
    hide ReadSince, RowsFor, Assembled;
    assert Mixed(past, b.host, b.first, b.entries, still);
  }

  /** A verified envelope is a stamp for this host. */
  lemma ArrivedIsStamped(open: Opener, host: Uuid, w: SetWorld, env: Envelope, still: bool)
    requires SetInv(open, host, w, still) && VerifiesSets(w.stamps, host, env)
    ensures Stamp(SecretSetsKind, host, env.number, env.data) in w.stamps
  {
    var input := SigningInput(SecretSetsKind, host, env.number, env.data);
    var s :| s in w.stamps && input == SigningInput(s.kind, s.host, s.number, s.data);
    assert StampOk(open, host, w.past, s, still);
    SigningInputInjective(SecretSetsKind, host, env.number, env.data, s.kind, s.host, s.number, s.data);
  }

  lemma ArriveKeeps(open: Opener, host: Uuid, w: SetWorld, env: Envelope, still: bool)
    requires SetInv(open, host, w, still)
    ensures SetInv(open, host, StepSets(open, host, w, Arrive(env)), still)
  {
    if VerifiesSets(w.stamps, host, env) {
      ArrivedIsStamped(open, host, w, env, still);
      assert StampOk(open, host, w.past, Stamp(SecretSetsKind, host, env.number, env.data), still);
    }
    hide OnceBuilt, ValidSets, VerifiesSets, ByName, BuildOk;
  }

  lemma StepKeepsSetInv(open: Opener, host: Uuid, w: SetWorld, e: SetStep, still: bool)
    requires SetInv(open, host, w, still) && (still ==> ReadsStill(host, w, e))
    ensures SetInv(open, host, StepSets(open, host, w, e), still)
  {
    match e {
      case CommitSets(next) => if ValidSets(next) { CommitKeeps(open, host, w, next, still); }
      case ReadRows(handler, h) => RowsKeep(open, host, w, handler, h, still);
      case ReadEntries(handler, id) => EntriesKeep(open, host, w, handler, id, still);
      case StampSets(handler, data) => StampKeeps(open, host, w, handler, data, still);
      case Arrive(env) => ArriveKeeps(open, host, w, env, still);
      case _ =>
    }
    hide OnceBuilt, ValidSets, VerifiesSets, BuildOk, StampOk, StoreOk, AfterRows, AfterEntries, AfterStamp;
  }

  /** No read of the run for this host sees entries changed since the rows of its push were read. */
  ghost predicate StillRun(open: Opener, host: Uuid, t: SetTables, es: seq<SetStep>) {
    forall n | 0 <= n < |es| :: ReadsStill(host, RunSets(open, host, InitSets(t), es[..n]), es[n])
  }

  lemma StillBefore(open: Opener, host: Uuid, t: SetTables, es: seq<SetStep>)
    requires es != [] && StillRun(open, host, t, es)
    ensures StillRun(open, host, t, es[..|es| - 1])
    ensures ReadsStill(host, RunSets(open, host, InitSets(t), es[..|es| - 1]), es[|es| - 1])
  {
    hide RunSets, ReadsStill;
    var init := es[..|es| - 1];
    forall n | 0 <= n < |init|
      ensures ReadsStill(host, RunSets(open, host, InitSets(t), init[..n]), init[n])
    {
      assert init[..n] == es[..n];
    }
  }

  lemma {:induction false} RunKeepsSetInv(open: Opener, host: Uuid, t: SetTables, es: seq<SetStep>, still: bool)
    requires ValidSets(t) && (still ==> StillRun(open, host, t, es))
    ensures SetInv(open, host, RunSets(open, host, InitSets(t), es), still)
  {
    hide StepSets, StillRun, ReadsStill;
    if es != [] {
      if still {
        StillBefore(open, host, t, es);
      }
      RunKeepsSetInv(open, host, t, es[..|es| - 1], still);
      StepKeepsSetInv(open, host, RunSets(open, host, InitSets(t), es[..|es| - 1]), es[|es| - 1], still);
    }
  }

  // ---------------------------------------------------------------------------
  // What a store holds

  /** The store answers the name of every set of the bundle with that set, and no other name. */
  ghost predicate Answers(bundle: set<SecretSet>, value: Opened) {
    forall x :: x in bundle <==> x.name in value && value[x.name] == x
  }

  lemma AssembledAnswers(t: SetTables, host: Uuid, entries: map<Uuid, Entries>, sets: seq<SecretSet>)
    requires ValidSets(t) && entries.Keys == RowsFor(t, host).Keys
    requires Elements(sets) == Assembled(RowsFor(t, host), entries)
    ensures Answers(Assembled(RowsFor(t, host), entries), ByName(sets))
  {
    forall x
      ensures x in Elements(sets) <==> x.name in ByName(sets) && ByName(sets)[x.name] == x
    {
      OpenedIsListed(sets, x);
    }
  }

  /** What a store may hold in a world: nothing, or a bundle put together from its tables. */
  ghost predicate HoldsBuilt(w: SetWorld, host: Uuid, still: bool) {
    || w.store == EMPTY_STORE
    || (w.store.ready && exists i: nat, entries ::
          && Mixed(w.past, host, i, entries, still)
          && Answers(Assembled(RowsFor(w.past[i], host), entries), w.store.cell.value))
  }

  lemma InvHoldsBuilt(open: Opener, host: Uuid, w: SetWorld, still: bool)
    requires SetInv(open, host, w, still)
    ensures HoldsBuilt(w, host, still)
  {
    hide ValidSets, BuildOk, StampOk, ByName, Assembled, Answers, RowsFor, ReadSince;
    if w.store != EMPTY_STORE {
      var sets :| w.store.cell.value == ByName(sets) && OnceBuilt(w.past, host, Elements(sets), still);
      var i: nat, entries :| Mixed(w.past, host, i, entries, still)
                        && Elements(sets) == Assembled(RowsFor(w.past[i], host), entries);
      AssembledAnswers(w.past[i], host, entries, sets);
    }
  }

  /** In every run, however statements, stamping and delivery interleave, a store is empty and
      not ready, or its names, accounts and versions are those of one committed state, and
      each set's entries are that set's at this state or a later one, none if it was deleted. */
  lemma StoreIsEmptyOrMixed(open: Opener, host: Uuid, t: SetTables, es: seq<SetStep>)
    requires ValidSets(t)
    ensures HoldsBuilt(RunSets(open, host, InitSets(t), es), host, false)
  {
    hide SetInv, HoldsBuilt;
    RunKeepsSetInv(open, host, t, es, false);
    InvHoldsBuilt(open, host, RunSets(open, host, InitSets(t), es), false);
  }

  /** The store is empty, or answers as the tables of some committed state do for the host. */
  ghost predicate OnceCurrent(w: SetWorld, host: Uuid) {
    || w.store == EMPTY_STORE
    || (w.store.ready && exists i :: 0 <= i < |w.past| && Answers(Bundle(w.past[i], host), w.store.cell.value))
  }

  /** The rows of a state with the entries of the same state are the bundle. */
  lemma AssembledIsBundle(t: SetTables, host: Uuid, entries: map<Uuid, Entries>)
    requires entries.Keys == RowsFor(t, host).Keys && forall id | id in entries :: entries[id] == EntriesOf(t, id)
    ensures Assembled(RowsFor(t, host), entries) == Bundle(t, host)
  {
    var rows := RowsFor(t, host);
    forall x | x in Assembled(rows, entries)
      ensures x in Bundle(t, host)
    {
      var id :| id in rows && x == SecretSet(rows[id].name, rows[id].asUser, rows[id].version, entries[id]);
      InBundle(t, (host, id));
    }
    forall x | x in Bundle(t, host)
      ensures x in Assembled(rows, entries)
    {
      var b :| b in t.bindings && b.0 == host && b.1 in t.sets
               && x == SecretSet(t.sets[b.1].name, t.bindings[b], t.sets[b.1].version, t.sets[b.1].values);
      assert b == (host, b.1);
      assert b.1 in rows;
    }
  }

  lemma StillIsCurrent(w: SetWorld, host: Uuid)
    requires HoldsBuilt(w, host, true)
    ensures OnceCurrent(w, host)
  {
    hide Answers, Assembled, Bundle;
    if w.store != EMPTY_STORE {
      var i: nat, entries :| Mixed(w.past, host, i, entries, true)
                        && Answers(Assembled(RowsFor(w.past[i], host), entries), w.store.cell.value);
      AssembledIsBundle(w.past[i], host, entries);
    }
  }

  /** If no push reads entries that changed since it read the rows, the store is empty and not
      ready, or answers exactly as the tables of some committed state do. */
  lemma StillRunsAreOnceCurrent(open: Opener, host: Uuid, t: SetTables, es: seq<SetStep>)
    requires ValidSets(t) && StillRun(open, host, t, es)
    ensures OnceCurrent(RunSets(open, host, InitSets(t), es), host)
  {
    hide SetInv, HoldsBuilt, OnceCurrent, StillRun;
    RunKeepsSetInv(open, host, t, es, true);
    InvHoldsBuilt(open, host, RunSets(open, host, InitSets(t), es), true);
    StillIsCurrent(RunSets(open, host, InitSets(t), es), host);
  }

  // ---------------------------------------------------------------------------
  // Runs put together

  lemma {:induction false} RunSetsPlus(open: Opener, host: Uuid, w: SetWorld, es: seq<SetStep>, es': seq<SetStep>)
    requires w.past != []
    ensures RunSets(open, host, w, es + es') == RunSets(open, host, RunSets(open, host, w, es), es')
  {
    hide StepSets;
    if es' == [] {
      assert es + es' == es;
    } else {
      var init := es'[..|es'| - 1];
      RunSetsPlus(open, host, w, es, init);
      assert (es + es')[..|es + es'| - 1] == es + init;
    }
  }

  lemma RunSetsOne(open: Opener, host: Uuid, w: SetWorld, e: SetStep)
    requires w.past != []
    ensures RunSets(open, host, w, [e]) == StepSets(open, host, w, e)
  {
    hide StepSets;
    assert [e][..0] == [];
    assert RunSets(open, host, w, []) == w;
  }

  /** The entries of each listed set, one after the other. */
  function Visits(handler: nat, ids: seq<Uuid>): seq<SetStep> {
    seq(|ids|, i requires 0 <= i < |ids| => ReadEntries(handler, ids[i]))
  }

  /** The reads of one push with nothing between them. */
  function Reading(handler: nat, host: Uuid, ids: seq<Uuid>): seq<SetStep> {
    [ReadRows(handler, host)] + Visits(handler, ids)
  }

  function EntriesAt(t: SetTables, ids: set<Uuid>): map<Uuid, Entries> {
    map id | id in ids :: EntriesOf(t, id)
  }

  lemma {:induction false} VisitsRead(open: Opener, host: Uuid, w: SetWorld, handler: nat, ids: seq<Uuid>)
    requires w.past != [] && handler in w.builds && w.builds[handler].entries == map[]
    requires Elements(ids) <= w.builds[handler].rows.Keys
    ensures RunSets(open, host, w, Visits(handler, ids)) ==
            w.(builds := w.builds[handler :=
                 w.builds[handler].(entries := EntriesAt(CurrentSets(w), Elements(ids)))])
  {
    hide EntriesOf, AfterEntries;
    var b := w.builds[handler];
    if ids == [] {
      assert EntriesAt(CurrentSets(w), Elements(ids)) == map[];
      assert w.builds[handler := b.(entries := map[])] == w.builds;
    } else {
      var init, last := ids[..|ids| - 1], ids[|ids| - 1];
      assert ids == init + [last];
      assert Elements(ids) == Elements(init) + {last};
      VisitsRead(open, host, w, handler, init);
      assert Visits(handler, ids)[..|ids| - 1] == Visits(handler, init);
      var b1 := b.(entries := EntriesAt(CurrentSets(w), Elements(init)));
      var w1 := w.(builds := w.builds[handler := b1]);
      OneVisit(w1, handler, last, Elements(init));
      assert w1.builds[handler := b1.(entries := EntriesAt(CurrentSets(w), Elements(ids)))] ==
             w.builds[handler := b.(entries := EntriesAt(CurrentSets(w), Elements(ids)))];
    }
  }

  lemma OneVisit(w: SetWorld, handler: nat, id: Uuid, done: set<Uuid>)
    requires w.past != [] && handler in w.builds && id in w.builds[handler].rows
    requires w.builds[handler].entries == EntriesAt(CurrentSets(w), done)
    ensures AfterEntries(w, handler, id) ==
            w.(builds := w.builds[handler :=
                 w.builds[handler].(entries := EntriesAt(CurrentSets(w), done + {id}))])
  {
    hide EntriesOf;
    var t, b := CurrentSets(w), w.builds[handler];
    if id in done {
      assert done + {id} == done;
      assert w.builds[handler := b] == w.builds;
    } else {
      assert EntriesAt(t, done)[id := EntriesOf(t, id)] == EntriesAt(t, done + {id});
    }
  }

  /** The build of a push whose reads all see the same tables. */
  ghost function WholeBuild(w: SetWorld, host: Uuid): SetBuild
    requires w.past != []
  {
    var t := CurrentSets(w);
    SetBuild(host, |w.past| - 1, RowsFor(t, host), EntriesAt(t, RowsFor(t, host).Keys))
  }

  lemma ReadingReads(open: Opener, host: Uuid, w: SetWorld, handler: nat, h: Uuid, ids: seq<Uuid>)
    requires w.past != [] && handler !in w.builds && HasKey(CurrentSets(w), h)
    requires Elements(ids) == RowsFor(CurrentSets(w), h).Keys
    ensures RunSets(open, host, w, Reading(handler, h, ids)) ==
            w.(builds := w.builds[handler := WholeBuild(w, h)])
  {
    hide RowsFor, EntriesOf, RunSets;
    RunSetsPlus(open, host, w, [ReadRows(handler, h)], Visits(handler, ids));
    RunSetsOne(open, host, w, ReadRows(handler, h));
    var b := SetBuild(h, |w.past| - 1, RowsFor(CurrentSets(w), h), map[]);
    var w1 := w.(builds := w.builds[handler := b]);
    assert AfterRows(w, handler, h) == w1;
    VisitsRead(open, host, w1, handler, ids);
    assert w1.builds[handler := WholeBuild(w, h)] == w.builds[handler := WholeBuild(w, h)];
  }

  lemma WholeBuildIsBundle(w: SetWorld, host: Uuid)
    requires w.past != []
    ensures Assembled(WholeBuild(w, host).rows, WholeBuild(w, host).entries) == Bundle(CurrentSets(w), host)
  {
    var b := WholeBuild(w, host);
    AssembledIsBundle(CurrentSets(w), host, b.entries);
  }

  // ---------------------------------------------------------------------------
  // Overtaken pushes

  /** A push whose reads come before a commit and whose stamp comes after the next push. */
  function Overtaken(
    host: Uuid, ids: seq<Uuid>, staleData: Bytes, next: SetTables, ids': seq<Uuid>, data: Bytes): seq<SetStep>
  {
    Reading(0, host, ids) + [CommitSets(next)] + Reading(1, host, ids')
    + [StampSets(1, data)] + [StampSets(0, staleData)]
  }

  /** So only serialized pushes end with the newest bundle current: for every change of a
      keyed host's bundle there is a run after which the newest stamp holds the bundle before it. */
  lemma StaleBundleWins(
    open: Opener, host: Uuid, t: SetTables, ids: seq<Uuid>, staleData: Bytes,
    next: SetTables, ids': seq<Uuid>, data: Bytes)
    requires ValidSets(t) && ValidSets(next) && HasKey(t, host) && HasKey(next, host)
    requires Elements(ids) == RowsFor(t, host).Keys && Elements(ids') == RowsFor(next, host).Keys
    requires Seals(open, staleData, Bundle(t, host)) && Seals(open, data, Bundle(next, host))
    ensures var w := RunSets(open, host, InitSets(t), Overtaken(host, ids, staleData, next, ids', data));
            && CurrentSets(w) == next && w.builds == map[] && w.counters == map[host := 2]
            && w.stamps == {Stamp(SecretSetsKind, host, 1, data), Stamp(SecretSetsKind, host, 2, staleData)}
  {
    var w0 := InitSets(t);
    var both := Reading(0, host, ids) + [CommitSets(next)] + Reading(1, host, ids');
    BothRead(open, host, t, ids, next, ids');
    var w := RunSets(open, host, w0, both);
    hide ValidSets, Bundle, Seals, RunSets, RowsFor, Reading, InitSets;
    RunSetsPlus(open, host, w0, both, [StampSets(1, data)]);
    RunSetsPlus(open, host, w0, both + [StampSets(1, data)], [StampSets(0, staleData)]);
    RunSetsOne(open, host, w, StampSets(1, data));
    var w1 := StepSets(open, host, w, StampSets(1, data));
    RunSetsOne(open, host, w1, StampSets(0, staleData));
    StampBoth(open, host, w, staleData, data);
    hide StepSets;
  }

  lemma BothRead(open: Opener, host: Uuid, t: SetTables, ids: seq<Uuid>, next: SetTables, ids': seq<Uuid>)
    requires ValidSets(next) && HasKey(t, host) && HasKey(next, host)
    requires Elements(ids) == RowsFor(t, host).Keys && Elements(ids') == RowsFor(next, host).Keys
    ensures var w := RunSets(open, host, InitSets(t),
                             Reading(0, host, ids) + [CommitSets(next)] + Reading(1, host, ids'));
            && w.past == [t, next] && w.counters == map[] && w.stamps == {} && w.builds.Keys == {0, 1}
            && (forall k | k in w.builds ::
                  w.builds[k].host == host && w.builds[k].rows.Keys == w.builds[k].entries.Keys)
            && Assembled(w.builds[0].rows, w.builds[0].entries) == Bundle(t, host)
            && Assembled(w.builds[1].rows, w.builds[1].entries) == Bundle(next, host)
  {
    hide ValidSets, Bundle, RowsFor, Reading, RunSets, Assembled;
    var w0 := InitSets(t);
    ReadingReads(open, host, w0, 0, host, ids);
    WholeBuildIsBundle(w0, host);
    var w1 := w0.(builds := map[0 := WholeBuild(w0, host)]);
    RunSetsPlus(open, host, w0, Reading(0, host, ids), [CommitSets(next)]);
    RunSetsOne(open, host, w1, CommitSets(next));
    var w2 := w1.(past := [t] + [next]);
    ReadingReads(open, host, w2, 1, host, ids');
    WholeBuildIsBundle(w2, host);
    RunSetsPlus(open, host, w0, Reading(0, host, ids) + [CommitSets(next)], Reading(1, host, ids'));
  }

  lemma StampBoth(open: Opener, host: Uuid, w: SetWorld, staleData: Bytes, data: Bytes)
    requires w.past != [] && w.counters == map[] && w.stamps == {} && w.builds.Keys == {0, 1}
    requires w.builds[0].host == host == w.builds[1].host
    requires Stampable(open, host, w.builds[0], staleData) && Stampable(open, host, w.builds[1], data)
    ensures var w1 := StepSets(open, host, w, StampSets(1, data));
            var w' := StepSets(open, host, w1, StampSets(0, staleData));
            && w'.past == w.past && w'.builds == map[] && w'.counters == map[host := 2]
            && w'.stamps == {Stamp(SecretSetsKind, host, 1, data), Stamp(SecretSetsKind, host, 2, staleData)}
  {
    hide Stampable;
    var w1 := StepSets(open, host, w, StampSets(1, data));
    assert w1.builds == map[0 := w.builds[0]] && w1.counters == map[host := 1];
  }
}
