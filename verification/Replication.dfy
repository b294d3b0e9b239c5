/** Replication of the access view to the hosts' daemons, with handlers
    interleaved between building and stamping a snapshot, a network that may drop,
    repeat, reorder and invent messages, and daemons that crash and fail to save. */
module Replication {
  import opened Wire
  import opened Register
  import opened Directory

  type View = map<string, AccessEntry>

  /** Parsing of a snapshot document; the JSON decoder itself is not modelled. */
  type Parser = Bytes -> Option<seq<AccessEntry>>

  /** A signature is ideal: it is known by the input it was made over. */
  datatype Envelope = Envelope(kind: Kind, number: Uint64, data: Bytes, signedOver: Option<Bytes>)

  /** One use of the control plane's signing key. */
  datatype Stamp = Stamp(kind: Kind, host: Uuid, number: nat, data: Bytes)

  /** A snapshot read from the database. */
  datatype Build = Build(host: Uuid, entries: seq<AccessEntry>)

  /** The control plane. `past` lists every committed state of the access tables,
      the current one last; `builds` holds one snapshot for each handler that has read
      it and neither stamped it nor given up. */
  datatype Server = Server(
    past: seq<Tables>,
    lastSeq: map<Uuid, nat>,
    lastSetSeq: map<Uuid, nat>,
    builds: multiset<Build>,
    stamps: set<Stamp>)

  /** One enrolled machine: configured host id, the cache in memory and cache.json.
      `memFor` and `diskFor` record the host id each content was accepted under. */
  datatype Daemon = Daemon(host: Uuid, mem: Cell<View>, memFor: Uuid, disk: Cell<View>, diskFor: Uuid)

  datatype World = World(server: Server, daemons: map<nat, Daemon>)

  datatype ServerEvent =
    | Commit(next: Tables)
    | Read(host: Uuid, entries: seq<AccessEntry>)
    | StampSnapshot(build: Build, data: Bytes)
    | Abandon(build: Build)                    // the handler holding it fails
    | StampEmpty(host: Uuid, data: Bytes)      // the last snapshot of a revoked host
    | StampSecretSets(host: Uuid, data: Bytes)

  datatype DaemonEvent =
    | Deliver(env: Envelope, saved: bool)
    | Purge(saved: bool)
    | Restart
    | Enrol(host: Uuid)

  datatype Event = AtServer(se: ServerEvent) | AtDaemon(machine: nat, de: DaemonEvent)

  const BIGINT_MAX: nat := 0x7FFF_FFFF_FFFF_FFFF

  ghost function Current(c: Server): Tables
    requires c.past != []
  {
    c.past[|c.past| - 1]
  }

  /** A committed transaction may change anything but the identity and the accounts
      of existing hosts: no statement updates or deletes those. */
  ghost predicate MayCommit(t: Tables, next: Tables) {
    Valid(next) && forall h | h in t.hosts :: h in next.hosts && next.hosts[h].accounts == t.hosts[h].accounts
  }

  function Extended(counter: map<Uuid, nat>, hosts: set<Uuid>): map<Uuid, nat> {
    map h | h in hosts :: if h in counter then counter[h] else 0
  }

  /** snapshotEnvelope: take the host's next number and sign under it. */
  ghost function StampNext(parse: Parser, c: Server, build: Build, data: Bytes): (c': Server)
    ensures c'.past == c.past
  {
    if build.host !in c.lastSeq || c.lastSeq[build.host] >= BIGINT_MAX || parse(data) != Some(build.entries) then c
    else
      var number := c.lastSeq[build.host] + 1;
      c.(lastSeq := c.lastSeq[build.host := number],
         stamps := c.stamps + {Stamp(SnapshotKind, build.host, number, data)})
  }

  /** One step of a handler; an event that is not enabled changes nothing. */
  ghost function Serve(parse: Parser, c: Server, e: ServerEvent): (c': Server)
    requires c.past != []
    ensures c'.past != []
  {
    match e
    case Commit(next) =>
      if !MayCommit(Current(c), next) then c
      else
        c.(past := c.past + [next],
           lastSeq := Extended(c.lastSeq, next.hosts.Keys),
           lastSetSeq := Extended(c.lastSetSeq, next.hosts.Keys))
    case Read(host, entries) =>
      if !IsBuild(Current(c), host, entries) then c else c.(builds := c.builds + multiset{Build(host, entries)})
    case StampSnapshot(build, data) =>
      if build !in c.builds || parse(data) != Some(build.entries) then c
      else StampNext(parse, c.(builds := c.builds - multiset{build}), build, data)
    case Abandon(build) => c.(builds := c.builds - multiset{build})
    case StampEmpty(host, data) => StampNext(parse, c, Build(host, []), data)
    case StampSecretSets(host, data) =>
      if host !in c.lastSetSeq || c.lastSetSeq[host] >= BIGINT_MAX then c
      else
        var number := c.lastSetSeq[host] + 1;
        c.(lastSetSeq := c.lastSetSeq[host := number], stamps := c.stamps + {Stamp(SecretSetsKind, host, number, data)})
  }

  /** The inputs the signing key has signed. */
  ghost predicate Signed(stamps: set<Stamp>, input: Bytes) {
    exists s :: s in stamps && input == SigningInput(s.kind, s.host, s.number, s.data)
  }

  /** verifySnapshot with a stored signing key. */
  ghost predicate Verifies(stamps: set<Stamp>, host: Uuid, env: Envelope) {
    var input := SigningInput(SnapshotKind, host, env.number, env.data);
    env.signedOver == Some(input) && Signed(stamps, input)
  }

  function Contents(parse: Parser, data: Bytes): Option<View> {
    match parse(data)
    case None => None
    case Some(entries) => Some(ByFingerprint(entries))
  }

  /** dispatch on an envelope: verify, compare numbers, parse, replace, save. Only
      snapshots touch the access cache. */
  ghost function Dispatch(parse: Parser, stamps: set<Stamp>, d: Daemon, env: Envelope, saved: bool): Daemon {
    if env.kind != SnapshotKind || !Verifies(stamps, d.host, env) then d
    else
      var cell := Offer(d.mem, Message(env.number, Contents(parse, env.data)));
      if cell == d.mem then d else Save(d.(mem := cell, memFor := d.host), saved)
  }

  function Save(d: Daemon, saved: bool): Daemon {
    if saved then d.(disk := d.mem, diskFor := d.memFor) else d
  }

  function Fresh(host: Uuid): Daemon {
    var empty := Cell(0, map[]);
    Daemon(host, empty, host, empty, host)
  }

  /** What an event does to the daemon it reaches. Enrolment rewrites the
      configuration and leaves cache.json as it is. */
  ghost function React(parse: Parser, stamps: set<Stamp>, d: Daemon, e: DaemonEvent): Daemon {
    match e
    case Deliver(env, saved) => Dispatch(parse, stamps, d, env, saved)
    case Purge(saved) => Save(d.(mem := Cell(d.mem.number, map[])), saved)
    case Restart => d.(mem := d.disk, memFor := d.diskFor)
    case Enrol(host) => d.(host := host, mem := d.disk, memFor := d.diskFor)
  }

  ghost function Step(parse: Parser, w: World, e: Event): (w': World)
    requires w.server.past != []
    ensures w'.server.past != []
  {
    match e
    case AtServer(se) => w.(server := Serve(parse, w.server, se))
    case AtDaemon(m, de) =>
      if de.Enrol? && de.host !in Current(w.server).hosts then w
      else if m in w.daemons then w.(daemons := w.daemons[m := React(parse, w.server.stamps, w.daemons[m], de)])
      else if de.Enrol? then w.(daemons := w.daemons[m := Fresh(de.host)])
      else w
  }

  ghost function Run(parse: Parser, w: World, es: seq<Event>): (w': World)
    requires w.server.past != []
    ensures w'.server.past != []
  {
    if es == [] then w else Step(parse, Run(parse, w, es[..|es| - 1]), es[|es| - 1])
  }

  ghost function Init(t: Tables): World {
    World(Server([t], Extended(map[], t.hosts.Keys), Extended(map[], t.hosts.Keys), multiset{}, {}), map[])
  }

  // ---------------------------------------------------------------------------
  // The invariant

  /** The host's access view at some committed state. */
  ghost predicate OnceViewed(past: seq<Tables>, host: Uuid, v: View) {
    exists i :: 0 <= i < |past| && host in past[i].hosts && v == AccessView(past[i], host)
  }

  ghost predicate EmptyOrViewed(past: seq<Tables>, host: Uuid, v: View) {
    v == map[] || OnceViewed(past, host, v)
  }

  ghost predicate TablesOk(c: Server) {
    && c.past != []
    && (forall i | 0 <= i < |c.past| :: Valid(c.past[i]))
    && c.lastSeq.Keys == Current(c).hosts.Keys == c.lastSetSeq.Keys
    && (forall h | h in c.lastSeq :: c.lastSeq[h] <= BIGINT_MAX && c.lastSetSeq[h] <= BIGINT_MAX)
  }

  ghost predicate BuildsOk(c: Server) {
    forall b | b in c.builds :: EmptyOrViewed(c.past, b.host, ByFingerprint(b.entries))
  }

  ghost function Counter(c: Server, kind: Kind): map<Uuid, nat> {
    if kind == SnapshotKind then c.lastSeq else c.lastSetSeq
  }

  ghost predicate StampNumberOk(c: Server, s: Stamp) {
    s.host in Counter(c, s.kind) && 1 <= s.number <= Counter(c, s.kind)[s.host]
  }

  ghost predicate StampContentOk(parse: Parser, c: Server, s: Stamp) {
    s.kind == SnapshotKind ==>
      Contents(parse, s.data).Some? && EmptyOrViewed(c.past, s.host, Contents(parse, s.data).value)
  }

  ghost predicate StampsOk(parse: Parser, c: Server) {
    && (forall s | s in c.stamps :: StampNumberOk(c, s) && StampContentOk(parse, c, s))
    && (forall s, s' | s in c.stamps && s' in c.stamps ::
          s.kind == s'.kind && s.host == s'.host && s.number == s'.number ==> s == s')
  }

  ghost predicate ServerOk(parse: Parser, c: Server) {
    TablesOk(c) && BuildsOk(c) && StampsOk(parse, c)
  }

  /** The snapshot stamped for the host under this number holds this view. */
  ghost predicate Stamped(parse: Parser, stamps: set<Stamp>, host: Uuid, number: nat, v: View) {
    exists s :: s in stamps && s.kind == SnapshotKind && s.host == host && s.number == number
                && Contents(parse, s.data) == Some(v)
  }

  /** A number never runs ahead of the counter of the host id it came from, and the
      content is what was stamped under it unless purged. */
  ghost predicate CellOk(parse: Parser, c: Server, host: Uuid, cell: Cell<View>) {
    && host in c.lastSeq
    && cell.number <= c.lastSeq[host]
    && (cell.value == map[] || Stamped(parse, c.stamps, host, cell.number, cell.value))
  }

  ghost predicate DaemonOk(parse: Parser, c: Server, d: Daemon) {
    d.host in c.lastSeq && CellOk(parse, c, d.memFor, d.mem) && CellOk(parse, c, d.diskFor, d.disk)
  }

  ghost predicate Inv(parse: Parser, w: World) {
    ServerOk(parse, w.server) && forall m | m in w.daemons :: DaemonOk(parse, w.server, w.daemons[m])
  }

  /** What later control-plane states keep of earlier ones. */
  ghost predicate Grows(c: Server, c': Server) {
    && c.past <= c'.past
    && (forall h | h in c.lastSeq :: h in c'.lastSeq && c.lastSeq[h] <= c'.lastSeq[h])
    && (forall h | h in c.lastSetSeq :: h in c'.lastSetSeq && c.lastSetSeq[h] <= c'.lastSetSeq[h])
    && c.stamps <= c'.stamps
  }

  lemma GrowsOn(c: Server, c1: Server, c2: Server)
    requires Grows(c, c1) && Grows(c1, c2)
    ensures Grows(c, c2)
  {
  }

  lemma ServeGrows(parse: Parser, c: Server, e: ServerEvent)
    requires TablesOk(c)
    ensures Grows(c, Serve(parse, c, e)) && TablesOk(Serve(parse, c, e))
  {
    hide Serve, TablesOk, Grows;
    if e.Commit? {
      CommitGrows(parse, c, e.next);
    } else {
      OtherGrows(parse, c, e);
    }
  }

  lemma OtherGrows(parse: Parser, c: Server, e: ServerEvent)
    requires TablesOk(c) && !e.Commit?
    ensures Grows(c, Serve(parse, c, e)) && TablesOk(Serve(parse, c, e))
  {
    assert c.past != [];
    hide Valid, IsBuild, MayCommit, Extended, StampNext, TablesOk, Grows;
    BuildsApart(c, c.builds);
    match e {
      case StampSnapshot(build, data) =>
        BuildsApart(c, c.builds - multiset{build});
        StampNextGrows(parse, c.(builds := c.builds - multiset{build}), build, data);
        GrowsOn(c, c.(builds := c.builds - multiset{build}), Serve(parse, c, e));
      case StampEmpty(host, data) => StampNextGrows(parse, c, Build(host, []), data);
      case StampSecretSets(host, data) => StampSetsGrows(parse, c, host, data);
      case Read(host, entries) => BuildsApart(c, Serve(parse, c, e).builds);
      case Abandon(build) => BuildsApart(c, Serve(parse, c, e).builds);
    }
  }

  lemma BuildsApart(c: Server, builds: multiset<Build>)
    requires TablesOk(c)
    ensures Grows(c, c) && Grows(c, c.(builds := builds)) && TablesOk(c.(builds := builds))
  {
    hide Valid;
  }

  lemma StampSetsGrows(parse: Parser, c: Server, host: Uuid, data: Bytes)
    requires TablesOk(c)
    ensures var c' := Serve(parse, c, StampSecretSets(host, data)); Grows(c, c') && TablesOk(c')
  {
    hide Valid;
  }

  lemma StampNextGrows(parse: Parser, c: Server, build: Build, data: Bytes)
    requires TablesOk(c)
    ensures Grows(c, StampNext(parse, c, build, data)) && TablesOk(StampNext(parse, c, build, data))
  {
    hide Valid;
    var c' := StampNext(parse, c, build, data);
    assert c'.past == c.past && c'.lastSeq.Keys == c.lastSeq.Keys;
  }

  lemma CommitGrows(parse: Parser, c: Server, next: Tables)
    requires TablesOk(c)
    ensures Grows(c, Serve(parse, c, Commit(next))) && TablesOk(Serve(parse, c, Commit(next)))
  {
    hide Valid;
    if MayCommit(Current(c), next) {
      assert Current(Serve(parse, c, Commit(next))) == next;
    }
  }

  lemma ViewedStays(past: seq<Tables>, past': seq<Tables>, host: Uuid, v: View)
    requires past <= past' && EmptyOrViewed(past, host, v)
    ensures EmptyOrViewed(past', host, v)
  {
    if v != map[] {
      var i :| 0 <= i < |past| && host in past[i].hosts && v == AccessView(past[i], host);
      assert past'[i] == past[i];
    }
  }

  lemma StampStays(parse: Parser, c: Server, c': Server, s: Stamp)
    requires Grows(c, c') && StampNumberOk(c, s) && StampContentOk(parse, c, s)
    ensures StampNumberOk(c', s) && StampContentOk(parse, c', s)
  {
    if s.kind == SnapshotKind {
      ViewedStays(c.past, c'.past, s.host, Contents(parse, s.data).value);
    }
  }

  lemma BuildsStay(parse: Parser, c: Server, e: ServerEvent)
    requires ServerOk(parse, c)
    ensures BuildsOk(Serve(parse, c, e))
  {
    ServeGrows(parse, c, e);
    var c' := Serve(parse, c, e);
    forall b | b in c'.builds
      ensures EmptyOrViewed(c'.past, b.host, ByFingerprint(b.entries))
    {
      if b in c.builds {
        ViewedStays(c.past, c'.past, b.host, ByFingerprint(b.entries));
      } else {
        BuildYieldsView(Current(c), b.host, b.entries);
      }
    }
  }

  /** The stamp added by a step, if any, is numbered next and correctly filled. */
  lemma NewStampOk(parse: Parser, c: Server, e: ServerEvent, s: Stamp)
    requires ServerOk(parse, c)
    requires s in Serve(parse, c, e).stamps && s !in c.stamps
    ensures StampNumberOk(Serve(parse, c, e), s) && StampContentOk(parse, Serve(parse, c, e), s)
    ensures s.host in Counter(c, s.kind) && s.number == Counter(c, s.kind)[s.host] + 1
    ensures Serve(parse, c, e).stamps == c.stamps + {s}
  {
    if e.StampSnapshot? {
      assert Contents(parse, s.data) == Some(ByFingerprint(e.build.entries));
    }
  }

  lemma StampsStay(parse: Parser, c: Server, e: ServerEvent)
    requires ServerOk(parse, c)
    ensures StampsOk(parse, Serve(parse, c, e))
  {
    ServeGrows(parse, c, e);
    var c' := Serve(parse, c, e);
    forall s | s in c'.stamps
      ensures StampNumberOk(c', s) && StampContentOk(parse, c', s)
    {
      if s in c.stamps {
        StampStays(parse, c, c', s);
      } else {
        NewStampOk(parse, c, e, s);
      }
    }
    forall s, s' | s in c'.stamps && s' in c'.stamps && s.kind == s'.kind && s.host == s'.host && s.number == s'.number
      ensures s == s'
    {
      if s !in c.stamps { NewStampOk(parse, c, e, s); }
      if s' !in c.stamps { NewStampOk(parse, c, e, s'); }
    }
  }

  lemma ServeOk(parse: Parser, c: Server, e: ServerEvent)
    requires ServerOk(parse, c)
    ensures ServerOk(parse, Serve(parse, c, e)) && Grows(c, Serve(parse, c, e))
  {
    ServeGrows(parse, c, e);
    BuildsStay(parse, c, e);
    StampsStay(parse, c, e);
  }

  /** A verified envelope is one the control plane stamped for this host: the
      signed bytes fix kind, host, number and payload. */
  lemma VerifiedIsStamped(parse: Parser, c: Server, host: Uuid, env: Envelope)
    requires ServerOk(parse, c) && Verifies(c.stamps, host, env)
    ensures Stamp(SnapshotKind, host, env.number, env.data) in c.stamps
  {
    var input := SigningInput(SnapshotKind, host, env.number, env.data);
    var s :| s in c.stamps && input == SigningInput(s.kind, s.host, s.number, s.data);
    assert StampNumberOk(c, s);
    SigningInputInjective(SnapshotKind, host, env.number, env.data, s.kind, s.host, s.number, s.data);
  }

  lemma DispatchOk(parse: Parser, c: Server, d: Daemon, env: Envelope, saved: bool)
    requires ServerOk(parse, c) && DaemonOk(parse, c, d)
    ensures DaemonOk(parse, c, Dispatch(parse, c.stamps, d, env, saved))
  {
    if env.kind == SnapshotKind && Verifies(c.stamps, d.host, env) {
      VerifiedIsStamped(parse, c, d.host, env);
      assert StampNumberOk(c, Stamp(SnapshotKind, d.host, env.number, env.data));
    }
  }

  lemma ReactOk(parse: Parser, c: Server, d: Daemon, e: DaemonEvent)
    requires ServerOk(parse, c) && DaemonOk(parse, c, d) && (e.Enrol? ==> e.host in c.lastSeq)
    ensures DaemonOk(parse, c, React(parse, c.stamps, d, e))
  {
    if e.Deliver? {
      DispatchOk(parse, c, d, e.env, e.saved);
    }
  }

  lemma DaemonStays(parse: Parser, c: Server, c': Server, d: Daemon)
    requires Grows(c, c') && DaemonOk(parse, c, d)
    ensures DaemonOk(parse, c', d)
  {
  }

  lemma StepKeepsInv(parse: Parser, w: World, e: Event)
    requires Inv(parse, w)
    ensures Inv(parse, Step(parse, w, e)) && Grows(w.server, Step(parse, w, e).server)
  {
    match e {
      case AtServer(se) =>
        ServeOk(parse, w.server, se);
        forall m | m in w.daemons
          ensures DaemonOk(parse, Serve(parse, w.server, se), w.daemons[m])
        {
          DaemonStays(parse, w.server, Serve(parse, w.server, se), w.daemons[m]);
        }
      case AtDaemon(m, de) =>
        if m in w.daemons && (de.Enrol? ==> de.host in w.server.lastSeq) {
          ReactOk(parse, w.server, w.daemons[m], de);
        }
    }
  }

  lemma {:induction false} RunKeepsInv(parse: Parser, w: World, es: seq<Event>)
    requires Inv(parse, w)
    ensures Inv(parse, Run(parse, w, es)) && Grows(w.server, Run(parse, w, es).server)
  {
    if es != [] {
      var w1 := Run(parse, w, es[..|es| - 1]);
      RunKeepsInv(parse, w, es[..|es| - 1]);
      StepKeepsInv(parse, w1, es[|es| - 1]);
      GrowsOn(w.server, w1.server, Step(parse, w1, es[|es| - 1]).server);
    }
  }

  // ---------------------------------------------------------------------------
  // Safety over every run

  lemma CellIsViewed(parse: Parser, c: Server, host: Uuid, cell: Cell<View>)
    requires ServerOk(parse, c) && CellOk(parse, c, host, cell)
    ensures EmptyOrViewed(c.past, host, cell.value)
  {
    if cell.value != map[] {
      var s :| s in c.stamps && s.kind == SnapshotKind && s.host == host && s.number == cell.number
               && Contents(parse, s.data) == Some(cell.value);
      assert StampContentOk(parse, c, s);
    }
  }

  /** In every run a daemon's cache, in memory and on disk, is empty or exactly the
      access view the control plane had at some committed state for the host id the
      content was accepted under, and its number never exceeds that host's counter. */
  lemma CacheIsEmptyOrOnceViewed(parse: Parser, t: Tables, es: seq<Event>, m: nat)
    requires Valid(t) && m in Run(parse, Init(t), es).daemons
    ensures var w := Run(parse, Init(t), es);
            var c, d := w.server, w.daemons[m];
            && EmptyOrViewed(c.past, d.memFor, d.mem.value)
            && EmptyOrViewed(c.past, d.diskFor, d.disk.value)
            && d.memFor in c.lastSeq && d.mem.number <= c.lastSeq[d.memFor]
            && d.diskFor in c.lastSeq && d.disk.number <= c.lastSeq[d.diskFor]
  {
    RunKeepsInv(parse, Init(t), es);
    var w := Run(parse, Init(t), es);
    var d := w.daemons[m];
    assert DaemonOk(parse, w.server, d);
    CellIsViewed(parse, w.server, d.memFor, d.mem);
    CellIsViewed(parse, w.server, d.diskFor, d.disk);
  }

  /** Events that end a daemon's process life. */
  predicate EndsLife(e: Event, m: nat) {
    e.AtDaemon? && e.machine == m && (e.de.Restart? || e.de.Enrol?)
  }

  /** The number held does not fall, and the content changes only under a strictly
      higher number, or to nothing by a purge. */
  ghost predicate Advances(c: Cell<View>, c': Cell<View>) {
    c.number <= c'.number && (c'.value == c.value || c'.value == map[] || c.number < c'.number)
  }

  lemma AcceptedIsHigher(parse: Parser, c: Server, d: Daemon, env: Envelope, saved: bool)
    requires ServerOk(parse, c)
    ensures var d' := Dispatch(parse, c.stamps, d, env, saved);
            d'.mem == d.mem || d.mem.number < d'.mem.number
  {
    if env.kind == SnapshotKind && Verifies(c.stamps, d.host, env) {
      VerifiedIsStamped(parse, c, d.host, env);
      assert StampNumberOk(c, Stamp(SnapshotKind, d.host, env.number, env.data));
    }
  }

  lemma StepAdvances(parse: Parser, w: World, e: Event, m: nat)
    requires ServerOk(parse, w.server) && m in w.daemons && !EndsLife(e, m)
    ensures m in Step(parse, w, e).daemons
    ensures Advances(w.daemons[m].mem, Step(parse, w, e).daemons[m].mem)
  {
    if e.AtDaemon? && e.machine == m && e.de.Deliver? {
      AcceptedIsHigher(parse, w.server, w.daemons[m], e.de.env, e.de.saved);
    }
  }

  /** Within a process life the cache only advances. */
  lemma {:induction false} NumbersRise(parse: Parser, w: World, es: seq<Event>, m: nat)
    requires Inv(parse, w) && m in w.daemons
    requires forall e | e in es :: !EndsLife(e, m)
    ensures m in Run(parse, w, es).daemons
    ensures Advances(w.daemons[m].mem, Run(parse, w, es).daemons[m].mem)
  {
    if es != [] {
      var init, last := es[..|es| - 1], es[|es| - 1];
      NumbersRise(parse, w, init, m);
      RunKeepsInv(parse, w, init);
      assert last in es;
      StepAdvances(parse, Run(parse, w, init), last, m);
    }
  }
}
