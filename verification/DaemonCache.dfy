/** The daemon's cache and its last-known-good file
    (internal/daemon: cache.go, store.go, client.go). */
module DaemonCache {
  import opened Wire
  import opened Register
  import opened Directory
  import opened Replication

  // ---------------------------------------------------------------------------
  // atomicWrite

  datatype WriteStep = CreateTemp | WriteData | Chmod | Close | Rename | Done

  /** The write goes through, fails at a step, or the process dies at a step. A
      failing or dying WriteData leaves `written` bytes behind. */
  datatype Fault = NoFault | FailAt(step: WriteStep, written: nat) | CrashAt(step: WriteStep, written: nat)

  datatype Outcome = Written | Failed | Crashed

  type Files = map<string, Bytes>

  /** The rename took place. */
  predicate Replaces(fault: Fault) {
    fault.NoFault? || fault.step == Done
  }

  function OutcomeOf(fault: Fault): Outcome {
    if fault.CrashAt? then Crashed else if Replaces(fault) then Written else Failed
  }

  /** The directory after a write of `data` to `path` by way of `tmp`, for each place at
      which it can fail, taking the temporary file away, or the process can die. */
  function AfterWrite(files: Files, path: string, data: Bytes, tmp: string, fault: Fault): Files {
    if Replaces(fault) then files[path := data]
    else if fault.FailAt? || fault.step == CreateTemp then files
    else if fault.step == WriteData
    then files[tmp := if fault.written < |data| then data[..fault.written] else data]
    else files[tmp := data]
  }

  /** Wherever the write fails or the process dies, `path` holds all of the old content or
      all of the new, and every other file but the temporary one is untouched. */
  lemma WriteIsAtomic(files: Files, path: string, data: Bytes, tmp: string, fault: Fault)
    requires tmp !in files && tmp != path
    ensures var files' := AfterWrite(files, path, data, tmp, fault);
            if Replaces(fault) then files' == files[path := data] else files' - {tmp} == files
    ensures !fault.CrashAt? ==> tmp !in AfterWrite(files, path, data, tmp, fault)
  {}

  lemma TakenAway(files: Files, tmp: string, data: Bytes)
    requires tmp !in files
    ensures files[tmp := data] - {tmp} == files
  {}

  class Dir {
    var files: Files

    constructor ()
      ensures files == map[]
    {
      files := map[];
    }

    /** Creates and fills the temporary file; true if the write ends there. */
    method WriteTemp(data: Bytes, tmp: string, fault: Fault) returns (ended: bool)
      requires tmp !in files
      modifies this
      ensures ended <==> !Replaces(fault) && fault.step != Rename
      ensures files == if ended then AfterWrite(old(files), tmp, data, tmp, fault) else old(files)[tmp := data]
    {
      if !Replaces(fault) && fault.step == CreateTemp { return true; }
      ghost var before := files;
      files := files[tmp := []];
      if !Replaces(fault) && fault.step == WriteData {
        files := files[tmp := if fault.written < |data| then data[..fault.written] else data];
        if fault.FailAt? {
          TakenAway(before, tmp, files[tmp]);
          files := files - {tmp};
        }
        return true;
      }
      files := files[tmp := data];
      if !Replaces(fault) && (fault.step == Chmod || fault.step == Close) {
        if fault.FailAt? {
          TakenAway(before, tmp, data);
          files := files - {tmp};
        }
        return true;
      }
      return false;
    }

    /** Writes a temporary file beside `path`, named by a fresh name, then renames it. */
    method AtomicWrite(path: string, data: Bytes, tmp: string, fault: Fault) returns (r: Outcome)
      requires tmp !in files && tmp != path
      modifies this
      ensures files == AfterWrite(old(files), path, data, tmp, fault) && r == OutcomeOf(fault)
    {
      TakenAway(files, tmp, data);
      var ended := WriteTemp(data, tmp, fault);
      if !ended && fault.FailAt? && fault.step == Rename {
        files := files - {tmp};
      } else if !ended && Replaces(fault) {
        files := (files - {tmp})[path := data];
      }
      r := OutcomeOf(fault);
    }
  }

  // ---------------------------------------------------------------------------
  // Persisting and reloading

  const CACHE_FILE := "cache.json"

  /** The cache document: number and entries; its JSON form is not modelled. */
  datatype Document = Document(number: nat, entries: seq<AccessEntry>)

  datatype Codec = Codec(encode: Document -> Bytes, decode: Bytes -> Option<Document>)

  ghost predicate Faithful(codec: Codec) {
    forall doc :: codec.decode(codec.encode(doc)) == Some(doc)
  }

  ghost predicate KeyedByFingerprint(v: View) {
    forall f | f in v :: v[f].fingerprint == f
  }

  /** `entries` lists the values of the map, in any order. */
  ghost predicate Lists(entries: seq<AccessEntry>, v: View) {
    Elements(entries) == set f | f in v :: v[f]
  }

  /** For every iteration order of the map, reloading what was persisted gives back
      the same entries. */
  lemma ReloadRestores(entries: seq<AccessEntry>, v: View)
    requires KeyedByFingerprint(v) && Lists(entries, v)
    ensures ByFingerprint(entries) == v
  {
    ByFingerprintDomain(entries);
    var m := ByFingerprint(entries);
    forall f | f in m
      ensures f in v && v[f] == m[f]
    {
      assert m[f] in Elements(entries);
    }
    forall f | f in v
      ensures f in m
    {
      assert v[f] in Elements(entries);
    }
  }

  lemma ByFingerprintIsKeyed(entries: seq<AccessEntry>)
    ensures KeyedByFingerprint(ByFingerprint(entries))
  {
    ByFingerprintDomain(entries);
  }

  /** What LoadCache makes of the file: a missing file is an empty cache. */
  function Loaded(codec: Codec, files: Files): Option<Cell<View>> {
    if CACHE_FILE !in files then Some(Cell(0, map[]))
    else
      match codec.decode(files[CACHE_FILE])
      case None => None
      case Some(doc) => Some(Cell(doc.number, ByFingerprint(doc.entries)))
  }

  /** Loading fails exactly if there is a file that does not decode. Else it gives the number of
      the file and under each fingerprint its last entry, or an empty cache for no file. */
  lemma LoadedIff(codec: Codec, files: Files, f: string, e: AccessEntry)
    ensures Loaded(codec, files).None? <==> CACHE_FILE in files && codec.decode(files[CACHE_FILE]).None?
    ensures CACHE_FILE !in files ==> Loaded(codec, files).value == Cell(0, map[])
    ensures CACHE_FILE in files && Loaded(codec, files).Some? ==>
              var doc, cell := codec.decode(files[CACHE_FILE]).value, Loaded(codec, files).value;
              && cell.number == doc.number
              && (f in cell.value && cell.value[f] == e <==> e.fingerprint == f && IsLast(doc.entries, e))
  {
    if CACHE_FILE in files && codec.decode(files[CACHE_FILE]).Some? {
      ByFingerprintIff(codec.decode(files[CACHE_FILE]).value.entries, f, e);
    }
    hide ByFingerprint, IsLast;
  }

  /** The file is the persisted form of the state. */
  ghost predicate Persists(codec: Codec, files: Files, cell: Cell<View>) {
    && CACHE_FILE in files
    && exists entries :: Lists(entries, cell.value) && files[CACHE_FILE] == codec.encode(Document(cell.number, entries))
  }

  lemma PersistedLoads(codec: Codec, files: Files, cell: Cell<View>)
    requires Faithful(codec) && KeyedByFingerprint(cell.value) && Persists(codec, files, cell)
    ensures Loaded(codec, files) == Some(cell)
  {
    var entries :| Lists(entries, cell.value) && files[CACHE_FILE] == codec.encode(Document(cell.number, entries));
    ReloadRestores(entries, cell.value);
    assert codec.decode(codec.encode(Document(cell.number, entries))) == Some(Document(cell.number, entries));
  }

  lemma PersistsWritten(
    codec: Codec, files: Files, cell: Cell<View>, listing: seq<AccessEntry>, tmp: string, fault: Fault)
    requires Lists(listing, cell.value) && Replaces(fault)
    ensures Persists(codec, AfterWrite(files, CACHE_FILE, Encoded(codec, cell, listing), tmp, fault), cell)
  {}

  // ---------------------------------------------------------------------------
  // One daemon's memory and directory

  function Encoded(codec: Codec, cell: Cell<View>, listing: seq<AccessEntry>): Bytes {
    codec.encode(Document(cell.number, listing))
  }

  /** `alive` is false from a crash to the next start; `mem` is then what died with it. */
  datatype Life = Life(alive: bool, mem: Cell<View>, files: Files)

  /** `listing` is the order in which the map is iterated when it is written. */
  datatype CacheEvent =
    | Arrive(env: Envelope, stamps: set<Stamp>, listing: seq<AccessEntry>, tmp: string, fault: Fault)
    | Clear(tmp: string, fault: Fault)
    | Boot

  /** dispatch accepts the envelope: it verifies, is not numbered at or below the number
      held, and parses. */
  ghost predicate Accepted(parse: Parser, stamps: set<Stamp>, host: Uuid, number: nat, env: Envelope) {
    && env.kind == SnapshotKind && Verifies(stamps, host, env)
    && !(env.number != 0 && env.number <= number)
    && parse(env.data).Some?
  }

  /** Replace the memory, then write it out. */
  function Stored(codec: Codec, s: Life, cell: Cell<View>, listing: seq<AccessEntry>, tmp: string, fault: Fault): Life {
    Life(!fault.CrashAt?, cell, AfterWrite(s.files, CACHE_FILE, Encoded(codec, cell, listing), tmp, fault))
  }

  ghost function Lives(codec: Codec, parse: Parser, host: Uuid, s: Life, e: CacheEvent): Life {
    match e
    case Arrive(env, stamps, listing, tmp, fault) =>
      if Accepted(parse, stamps, host, s.mem.number, env)
      then Stored(codec, s, Cell(env.number, ByFingerprint(parse(env.data).value)), listing, tmp, fault) else s
    case Clear(tmp, fault) => Stored(codec, s, Cell(s.mem.number, map[]), [], tmp, fault)
    case Boot =>
      match Loaded(codec, s.files)
      case None => s.(alive := false)
      case Some(cell) => Life(true, cell, s.files)
  }

  class Cache {
    var number: nat
    var entries: View
    const dir: Dir
    const codec: Codec

    function Mem(): Cell<View>
      reads this
    {
      Cell(number, entries)
    }

    constructor (dir: Dir, codec: Codec)
      ensures this.dir == dir && this.codec == codec && Mem() == Cell(0, map[])
    {
      this.dir, this.codec := dir, codec;
      this.number, this.entries := 0, map[];
    }

    /** Reads cache.json back; reports whether it was readable. */
    method Load() returns (ok: bool)
      modifies this
      ensures ok <==> Loaded(codec, dir.files).Some?
      ensures ok ==> Some(Mem()) == Loaded(codec, dir.files)
      ensures !ok ==> Mem() == old(Mem())
    {
      if CACHE_FILE !in dir.files {
        number, entries := 0, map[];
        return true;
      }
      match codec.decode(dir.files[CACHE_FILE]) {
        case None => return false;
        case Some(doc) =>
          var filled := Filled(doc.entries);
          number, entries := doc.number, filled;
          return true;
      }
    }

    /** The fill loop of loading and applying: one assignment per entry. */
    static method Filled(list: seq<AccessEntry>) returns (m: View)
      ensures m == ByFingerprint(list)
    {
      m := map[];
      for i := 0 to |list|
        invariant m == ByFingerprint(list[..i])
      {
        assert list[..i + 1][..i] == list[..i];
        m := m[list[i].fingerprint := list[i]];
      }
      assert list[..|list|] == list;
    }

    /** Lists the map in whatever order it iterates. */
    static method Listed(m: View) returns (list: seq<AccessEntry>)
      ensures Lists(list, m)
    {
      list := [];
      var left := m;
      ghost var done: set<string> := {};
      while left != map[]
        invariant done + left.Keys == m.Keys && forall f | f in left :: left[f] == m[f]
        invariant Elements(list) == set f | f in done :: m[f]
        decreases |left|
      {
        assert left.Keys != {};
        var f :| f in left;
        ghost var before := list;
        list := list + [left[f]];
        assert Elements(list) == Elements(before) + {m[f]};
        left, done := left - {f}, done + {f};
      }
    }

    method Persist(tmp: string, fault: Fault) returns (r: Outcome, ghost listing: seq<AccessEntry>)
      requires tmp !in dir.files && tmp != CACHE_FILE
      modifies dir
      ensures Lists(listing, entries) && r == OutcomeOf(fault)
      ensures dir.files == AfterWrite(old(dir.files), CACHE_FILE, Encoded(codec, Mem(), listing), tmp, fault)
      ensures r == Written ==> Persists(codec, dir.files, Mem())
    {
      var list := Listed(entries);
      r := dir.AtomicWrite(CACHE_FILE, codec.encode(Document(number, list)), tmp, fault);
      listing := list;
    }

    method ApplySnapshot(list: seq<AccessEntry>, number: nat, tmp: string, fault: Fault)
      returns (r: Outcome, ghost listing: seq<AccessEntry>)
      requires tmp !in dir.files && tmp != CACHE_FILE
      modifies this, dir
      ensures Lists(listing, ByFingerprint(list)) && r == OutcomeOf(fault)
      ensures var before := Life(true, old(Mem()), old(dir.files));
              var after := Stored(codec, before, Cell(number, ByFingerprint(list)), listing, tmp, fault);
              Mem() == after.mem && dir.files == after.files
      ensures r == Written ==> Persists(codec, dir.files, Mem())
    {
      entries := Filled(list);
      this.number := number;
      r, listing := Persist(tmp, fault);
    }

    /** Clears every entry and keeps the number. */
    method Purge(tmp: string, fault: Fault) returns (r: Outcome)
      requires tmp !in dir.files && tmp != CACHE_FILE
      modifies this, dir
      ensures Mem() == Cell(old(number), map[]) && r == OutcomeOf(fault)
      ensures dir.files == Stored(codec, Life(true, old(Mem()), old(dir.files)), Mem(), [], tmp, fault).files
      ensures r == Written ==> Persists(codec, dir.files, Mem())
    {
      entries := map[];
      ghost var listing;
      r, listing := Persist(tmp, fault);
      assert listing == [] by { ListsNothing(listing); }
    }

    /** dispatch of a snapshot envelope; `authentic` is the verdict of the signature check. */
    method Dispatch(
      parse: Parser, host: Uuid, env: Envelope, authentic: bool, ghost stamps: set<Stamp>, tmp: string, fault: Fault)
      returns (r: Outcome, ghost listing: seq<AccessEntry>)
      requires env.kind == SnapshotKind && (authentic <==> Verifies(stamps, host, env))
      requires tmp !in dir.files && tmp != CACHE_FILE
      modifies this, dir
      ensures var before := Life(true, old(Mem()), old(dir.files));
              var after := Lives(codec, parse, host, before, Arrive(env, stamps, listing, tmp, fault));
              Mem() == after.mem && dir.files == after.files
      ensures Accepted(parse, stamps, host, old(number), env) ==> Lists(listing, entries) && r == OutcomeOf(fault)
    {
      listing := [];
      if !authentic { return Written, []; }
      if env.number != 0 && env.number <= number { return Written, []; }
      match parse(env.data) {
        case None => return Failed, [];
        case Some(list) => r, listing := ApplySnapshot(list, env.number, tmp, fault);
      }
    }
  }

  lemma ListsNothing(listing: seq<AccessEntry>)
    requires Lists(listing, map[])
    ensures listing == []
  {
    if listing != [] {
      ListsSomething(listing);
    }
  }

  lemma ListsSomething(listing: seq<AccessEntry>)
    requires listing != []
    ensures Elements(listing) != {}
  {
    assert listing[0] in Elements(listing);
  }

  // ---------------------------------------------------------------------------
  // Runs of deliveries, purges, failed writes, crashes and restarts

  /** Every stamp is numbered from one, as the counters do. */
  ghost predicate Numbered(stamps: set<Stamp>) {
    forall s | s in stamps :: 1 <= s.number < NUMBER_LIMIT
  }

  lemma StampsAreNumbered(parse: Parser, c: Server)
    requires ServerOk(parse, c)
    ensures Numbered(c.stamps)
  {
    forall s | s in c.stamps
      ensures 1 <= s.number < NUMBER_LIMIT
    {
      assert StampNumberOk(c, s);
    }
  }

  /** The process is up, the temporary name is fresh, and what is written lists the map. */
  ghost predicate MayHappen(parse: Parser, host: Uuid, s: Life, e: CacheEvent) {
    match e
    case Arrive(env, stamps, listing, tmp, _) =>
      && s.alive && tmp !in s.files && tmp != CACHE_FILE && Numbered(stamps)
      && (Accepted(parse, stamps, host, s.mem.number, env) ==> Lists(listing, ByFingerprint(parse(env.data).value)))
    case Clear(tmp, _) => s.alive && tmp !in s.files && tmp != CACHE_FILE
    case Boot => true
  }

  /** The state after a run; events that may not happen are skipped. */
  ghost function LivesAll(codec: Codec, parse: Parser, host: Uuid, s: Life, es: seq<CacheEvent>): Life {
    if es == [] then s
    else
      var s1, e := LivesAll(codec, parse, host, s, es[..|es| - 1]), es[|es| - 1];
      if MayHappen(parse, host, s1, e) then Lives(codec, parse, host, s1, e) else s1
  }

  /** The same events on the daemon of the replication model. */
  ghost function Follows(parse: Parser, d: Daemon, e: CacheEvent): Daemon {
    match e
    case Arrive(env, stamps, _, _, fault) => React(parse, stamps, d, Deliver(env, Replaces(fault)))
    case Clear(_, fault) => React(parse, {}, d, DaemonEvent.Purge(Replaces(fault)))
    case Boot => React(parse, {}, d, Restart)
  }

  ghost function FollowsAll(codec: Codec, parse: Parser, s: Life, d: Daemon, es: seq<CacheEvent>): Daemon {
    if es == [] then d
    else
      var init, e := es[..|es| - 1], es[|es| - 1];
      var d1 := FollowsAll(codec, parse, s, d, init);
      if MayHappen(parse, d.host, LivesAll(codec, parse, d.host, s, init), e) then Follows(parse, d1, e) else d1
  }

  /** Memory and file are the memory and disk of the daemon. */
  ghost predicate Mirrors(codec: Codec, s: Life, d: Daemon) {
    s.mem == d.mem && Loaded(codec, s.files) == Some(d.disk)
  }

  lemma StoredLoads(
    codec: Codec, s: Life, entries: seq<AccessEntry>, number: nat, listing: seq<AccessEntry>, tmp: string, fault: Fault)
    requires Faithful(codec) && tmp !in s.files && tmp != CACHE_FILE && Lists(listing, ByFingerprint(entries))
    ensures var cell := Cell(number, ByFingerprint(entries));
            Loaded(codec, Stored(codec, s, cell, listing, tmp, fault).files) ==
            if Replaces(fault) then Some(cell) else Loaded(codec, s.files)
  {
    var cell := Cell(number, ByFingerprint(entries));
    var files' := Stored(codec, s, cell, listing, tmp, fault).files;
    WriteIsAtomic(s.files, CACHE_FILE, Encoded(codec, cell, listing), tmp, fault);
    if Replaces(fault) {
      ByFingerprintIsKeyed(entries);
      PersistsWritten(codec, s.files, cell, listing, tmp, fault);
      PersistedLoads(codec, files', cell);
    } else {
      assert CACHE_FILE in s.files <==> CACHE_FILE in files' - {tmp};
    }
  }

  lemma VerifiedIsNumbered(stamps: set<Stamp>, host: Uuid, env: Envelope)
    requires Numbered(stamps) && Verifies(stamps, host, env)
    ensures env.number >= 1
  {
    var input := SigningInput(SnapshotKind, host, env.number, env.data);
    var s :| s in stamps && input == SigningInput(s.kind, s.host, s.number, s.data);
    SigningInputInjective(SnapshotKind, host, env.number, env.data, s.kind, s.host, s.number, s.data);
  }

  /** One event of the process, its crash points included, is one event of the daemon. */
  lemma StepMirrors(codec: Codec, parse: Parser, s: Life, d: Daemon, e: CacheEvent)
    requires Faithful(codec) && Mirrors(codec, s, d) && MayHappen(parse, d.host, s, e)
    ensures Mirrors(codec, Lives(codec, parse, d.host, s, e), Follows(parse, d, e))
    ensures Follows(parse, d, e).host == d.host
  {
    hide Loaded, Stored, Verifies;
    match e {
      case Arrive(env, stamps, listing, tmp, fault) =>
        if Accepted(parse, stamps, d.host, s.mem.number, env) {
          VerifiedIsNumbered(stamps, d.host, env);
          StoredLoads(codec, s, parse(env.data).value, env.number, listing, tmp, fault);
          StoredMem(codec, s, Cell(env.number, ByFingerprint(parse(env.data).value)), listing, tmp, fault);
        }
      case Clear(tmp, fault) =>
        StoredLoads(codec, s, [], s.mem.number, [], tmp, fault);
        StoredMem(codec, s, Cell(s.mem.number, map[]), [], tmp, fault);
      case Boot =>
    }
  }

  lemma StoredMem(codec: Codec, s: Life, cell: Cell<View>, listing: seq<AccessEntry>, tmp: string, fault: Fault)
    ensures Stored(codec, s, cell, listing, tmp, fault).mem == cell
  {}

  /** A machine that has never run the daemon. */
  predicate Unused(s: Life) {
    s.mem == Cell(0, map[]) && CACHE_FILE !in s.files
  }

  /** Every run of the process, with its crashes and failed writes, is a run of the
      replication model's daemon: memory is its memory, and the file loads as its disk. */
  lemma {:induction false} RunMirrors(codec: Codec, parse: Parser, s: Life, d: Daemon, es: seq<CacheEvent>)
    requires Faithful(codec) && Mirrors(codec, s, d)
    ensures Mirrors(codec, LivesAll(codec, parse, d.host, s, es), FollowsAll(codec, parse, s, d, es))
    ensures FollowsAll(codec, parse, s, d, es).host == d.host
  {
    hide Mirrors, MayHappen, Lives, Follows;
    if es != [] {
      var init, e := es[..|es| - 1], es[|es| - 1];
      RunMirrors(codec, parse, s, d, init);
      var s1, d1 := LivesAll(codec, parse, d.host, s, init), FollowsAll(codec, parse, s, d, init);
      if MayHappen(parse, d.host, s1, e) {
        StepMirrors(codec, parse, s1, d1, e);
      }
    }
  }

  /** What one event leaves on disk loads as the memory after it, or as before. */
  lemma StepLoads(codec: Codec, parse: Parser, host: Uuid, s: Life, e: CacheEvent)
    requires Faithful(codec) && MayHappen(parse, host, s, e)
    ensures var s' := Lives(codec, parse, host, s, e);
            Loaded(codec, s'.files) == Some(s'.mem) || Loaded(codec, s'.files) == Loaded(codec, s.files)
  {
    hide Loaded, Stored;
    match e {
      case Arrive(env, stamps, listing, tmp, fault) =>
        if Accepted(parse, stamps, host, s.mem.number, env) {
          StoredLoads(codec, s, parse(env.data).value, env.number, listing, tmp, fault);
          StoredMem(codec, s, Cell(env.number, ByFingerprint(parse(env.data).value)), listing, tmp, fault);
        }
      case Clear(tmp, fault) =>
        StoredLoads(codec, s, [], s.mem.number, [], tmp, fault);
        StoredMem(codec, s, Cell(s.mem.number, map[]), [], tmp, fault);
      case Boot =>
    }
  }

  /** In every run, through every crash point and failed write, cache.json is never partial:
      it loads to exactly a state the memory had at some point of the run. */
  lemma {:induction false} FileIsNeverPartial(codec: Codec, parse: Parser, host: Uuid, s: Life, es: seq<CacheEvent>)
    returns (k: nat)
    requires Faithful(codec) && Unused(s)
    ensures k <= |es|
    ensures Loaded(codec, LivesAll(codec, parse, host, s, es).files) ==
            Some(LivesAll(codec, parse, host, s, es[..k]).mem)
  {
    hide MayHappen, Lives;
    if es == [] {
      k := 0;
    } else {
      var init, e := es[..|es| - 1], es[|es| - 1];
      k := FileIsNeverPartial(codec, parse, host, s, init);
      assert init[..k] == es[..k];
      var s1 := LivesAll(codec, parse, host, s, init);
      hide Loaded;
      if MayHappen(parse, host, s1, e) {
        StepLoads(codec, parse, host, s1, e);
        if Loaded(codec, LivesAll(codec, parse, host, s, es).files) != Loaded(codec, s1.files) {
          k := |es|;
          assert es[..k] == es;
        }
      }
    }
  }
}
