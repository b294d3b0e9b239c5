/** A machine enrolled again under a new host id. Enrolment rewrites the configuration
    and leaves cache.json with its number, so the snapshots of the new host id are
    taken exactly from the moment their numbers pass it. */
module ReEnrolment {
  import opened Wire
  import opened Register
  import opened Directory
  import opened Replication
  import opened Convergence
  import opened Reconnect
  import opened Reachable

  /** Both numbers held are at least `floor`. */
  ghost predicate Behind(d: Daemon, host: Uuid, floor: nat) {
    d.host == host && floor <= d.mem.number && floor <= d.disk.number
  }

  /** Nothing new is held: each content is an old one, or empty after a purge. */
  ghost predicate Carried(d0: Daemon, d: Daemon) {
    && d.mem.value in {d0.mem.value, d0.disk.value, map[]}
    && d.disk.value in {d0.mem.value, d0.disk.value, map[]}
  }

  lemma BehindReacts(parse: Parser, c: Server, d0: Daemon, d: Daemon, e: DaemonEvent, floor: nat)
    requires ServerOk(parse, c) && d.host in c.lastSeq && c.lastSeq[d.host] <= floor && !e.Enrol?
    requires Behind(d, d.host, floor) && Carried(d0, d)
    ensures Behind(React(parse, c.stamps, d, e), d.host, floor) && Carried(d0, React(parse, c.stamps, d, e))
  {
    if e.Deliver? && e.env.kind == SnapshotKind && Verifies(c.stamps, d.host, e.env) {
      VerifiedIsStamped(parse, c, d.host, e.env);
      assert StampNumberOk(c, Stamp(SnapshotKind, d.host, e.env.number, e.env.data));
    }
  }

  /** As long as the counter of the configured host id has not passed the numbers
      held, no run brings any of that host's snapshots into the cache. */
  lemma {:induction false} NothingTakenBelowFloor(
    parse: Parser, w: World, es: seq<Event>, m: nat, host: Uuid, floor: nat)
    requires Inv(parse, w) && m in w.daemons && Behind(w.daemons[m], host, floor)
    requires forall e | e in es && e.AtDaemon? && e.machine == m :: !e.de.Enrol?
    requires host in Run(parse, w, es).server.lastSeq && Run(parse, w, es).server.lastSeq[host] <= floor
    ensures m in Run(parse, w, es).daemons && Behind(Run(parse, w, es).daemons[m], host, floor)
    ensures Carried(w.daemons[m], Run(parse, w, es).daemons[m])
  {
    if es != [] {
      var init, last := es[..|es| - 1], es[|es| - 1];
      assert forall e | e in init :: e in es;
      assert last in es;
      var w1 := Run(parse, w, init);
      CounterBelow(parse, w, init, last, m, host, floor);
      NothingTakenBelowFloor(parse, w, init, m, host, floor);
      BehindStep(parse, w1, w.daemons[m], last, m, host, floor);
    }
  }

  lemma BehindStep(parse: Parser, w: World, d0: Daemon, e: Event, m: nat, host: Uuid, floor: nat)
    requires ServerOk(parse, w.server) && host in w.server.lastSeq && w.server.lastSeq[host] <= floor
    requires m in w.daemons && Behind(w.daemons[m], host, floor) && Carried(d0, w.daemons[m])
    requires e.AtDaemon? && e.machine == m ==> !e.de.Enrol?
    ensures var w' := Step(parse, w, e);
            m in w'.daemons && Behind(w'.daemons[m], host, floor) && Carried(d0, w'.daemons[m])
  {
    if e.AtDaemon? && e.machine == m {
      BehindReacts(parse, w.server, d0, w.daemons[m], e.de, floor);
    }
  }

  lemma CounterBelow(parse: Parser, w: World, es: seq<Event>, e: Event, m: nat, host: Uuid, floor: nat)
    requires Inv(parse, w) && m in w.daemons && w.daemons[m].host == host
    requires var w' := Step(parse, Run(parse, w, es), e);
             host in w'.server.lastSeq && w'.server.lastSeq[host] <= floor
    ensures Inv(parse, Run(parse, w, es))
    ensures host in Run(parse, w, es).server.lastSeq && Run(parse, w, es).server.lastSeq[host] <= floor
  {
    RunKeepsInv(parse, w, es);
    StepKeepsInv(parse, Run(parse, w, es), e);
    assert DaemonOk(parse, w.server, w.daemons[m]);
  }

  /** Enrolling a machine again rewrites its host id and keeps cache.json with its
      number. Until the new host's counter, which starts at zero, has passed that
      number, the daemon serves what the old host id left it, or nothing. */
  lemma ReEnrolledStaysBehind(parse: Parser, w: World, m: nat, host: Uuid, es: seq<Event>)
    requires Inv(parse, w) && m in w.daemons && host in Current(w.server).hosts
    requires forall e | e in es && e.AtDaemon? && e.machine == m :: !e.de.Enrol?
    requires var w1 := Step(parse, w, AtDaemon(m, Enrol(host)));
             && host in Run(parse, w1, es).server.lastSeq
             && Run(parse, w1, es).server.lastSeq[host] <= w.daemons[m].disk.number
    ensures var w' := Run(parse, Step(parse, w, AtDaemon(m, Enrol(host))), es);
            && m in w'.daemons && w'.daemons[m].host == host
            && w'.daemons[m].mem.value in {w.daemons[m].disk.value, map[]}
  {
    StepKeepsInv(parse, w, AtDaemon(m, Enrol(host)));
    NothingTakenBelowFloor(parse, Step(parse, w, AtDaemon(m, Enrol(host))), es, m, host, w.daemons[m].disk.number);
  }

  // ---------------------------------------------------------------------------
  // When it converges

  /** A cell of the machine since it enrolled as `host` with `left` on disk: still the old
      number with the old content or nothing, or a snapshot of `host` numbered above. */
  ghost predicate CellSince(
    parse: Parser, c: Server, host: Uuid, left: Cell<View>, leftFor: Uuid, cell: Cell<View>, cellFor: Uuid)
  {
    || (cellFor == leftFor && cell.number == left.number && cell.value in {left.value, map[]})
    || (cellFor == host && left.number < cell.number && CellOk(parse, c, host, cell))
  }

  ghost predicate Since(parse: Parser, c: Server, host: Uuid, left: Cell<View>, leftFor: Uuid, d: Daemon) {
    && d.host == host
    && CellSince(parse, c, host, left, leftFor, d.mem, d.memFor)
    && CellSince(parse, c, host, left, leftFor, d.disk, d.diskFor)
  }

  lemma SinceGrows(parse: Parser, c: Server, c': Server, host: Uuid, left: Cell<View>, leftFor: Uuid, d: Daemon)
    requires Grows(c, c') && Since(parse, c, host, left, leftFor, d)
    ensures Since(parse, c', host, left, leftFor, d)
  {}

  lemma SinceReacts(parse: Parser, c: Server, host: Uuid, left: Cell<View>, leftFor: Uuid, d: Daemon, e: DaemonEvent)
    requires ServerOk(parse, c) && Since(parse, c, host, left, leftFor, d) && !e.Enrol?
    ensures Since(parse, c, host, left, leftFor, React(parse, c.stamps, d, e))
  {
    if e.Deliver? && e.env.kind == SnapshotKind && Verifies(c.stamps, d.host, e.env) {
      VerifiedIsStamped(parse, c, d.host, e.env);
      assert StampNumberOk(c, Stamp(SnapshotKind, d.host, e.env.number, e.env.data));
    }
  }

  lemma SinceStep(parse: Parser, w: World, e: Event, m: nat, host: Uuid, left: Cell<View>, leftFor: Uuid)
    requires Inv(parse, w) && m in w.daemons && Since(parse, w.server, host, left, leftFor, w.daemons[m])
    requires e.AtDaemon? && e.machine == m ==> !e.de.Enrol?
    ensures var w' := Step(parse, w, e);
            m in w'.daemons && Since(parse, w'.server, host, left, leftFor, w'.daemons[m])
  {
    assert w.server.past != [];
    hide Since, ServerOk, DaemonOk, Grows;
    if e.AtServer? {
      ServeOk(parse, w.server, e.se);
      SinceGrows(parse, w.server, Serve(parse, w.server, e.se), host, left, leftFor, w.daemons[m]);
    } else if e.machine == m {
      SinceReacts(parse, w.server, host, left, leftFor, w.daemons[m], e.de);
    }
    hide Serve, React;
  }

  lemma {:induction false} SinceRun(
    parse: Parser, w: World, es: seq<Event>, m: nat, host: Uuid, left: Cell<View>, leftFor: Uuid)
    requires Inv(parse, w) && m in w.daemons && Since(parse, w.server, host, left, leftFor, w.daemons[m])
    requires forall e | e in es && e.AtDaemon? && e.machine == m :: !e.de.Enrol?
    ensures var w' := Run(parse, w, es);
            Inv(parse, w') && m in w'.daemons && Since(parse, w'.server, host, left, leftFor, w'.daemons[m])
  {
    assert w.server.past != [];
    hide Since, Inv, Step;
    if es != [] {
      var init, last := es[..|es| - 1], es[|es| - 1];
      assert last in es && forall e | e in init :: e in es;
      SinceRun(parse, w, init, m, host, left, leftFor);
      SinceStep(parse, Run(parse, w, init), last, m, host, left, leftFor);
      StepKeepsInv(parse, Run(parse, w, init), last);
    }
  }

  lemma EnrolledSince(parse: Parser, w: World, m: nat, host: Uuid)
    requires Inv(parse, w) && m in w.daemons && host in Current(w.server).hosts
    ensures var w1 := Step(parse, w, AtDaemon(m, Enrol(host)));
            && Inv(parse, w1) && m in w1.daemons
            && Since(parse, w1.server, host, w.daemons[m].disk, w.daemons[m].diskFor, w1.daemons[m])
  {
    StepKeepsInv(parse, w, AtDaemon(m, Enrol(host)));
    hide Inv, CellOk;
  }

  /** The newest snapshot was applied and then purged. */
  ghost predicate PurgedNewest(c: Server, d: Daemon)
    requires c.past != [] && d.host in Current(c).hosts && d.host in c.lastSeq
  {
    d.mem.number == c.lastSeq[d.host] && d.mem.value == map[] != AccessView(Current(c), d.host)
  }

  /** The machine's fate is decided by two numbers: after any run since its enrolment that
      leaves the newest stamp of the new host current, delivering that stamp brings it in
      sync exactly when the new counter has passed the number cache.json held at the
      enrolment, short of a purge of that very stamp. */
  lemma ReEnrolledConvergesIff(parse: Parser, w: World, m: nat, host: Uuid, es: seq<Event>, envs: seq<Envelope>)
    requires Inv(parse, w) && m in w.daemons && host in Current(w.server).hosts && w.daemons[m].diskFor != host
    requires forall e | e in es && e.AtDaemon? && e.machine == m :: !e.de.Enrol?
    requires var w' := Run(parse, Step(parse, w, AtDaemon(m, Enrol(host))), es);
             LastIsCurrent(parse, w'.server, host) && HasNewest(w'.server, host, envs)
    ensures var w' := Run(parse, Step(parse, w, AtDaemon(m, Enrol(host))), es);
            && m in w'.daemons && w'.daemons[m].host == host
            && (InSync(w'.server, host, DispatchAll(parse, w'.server.stamps, w'.daemons[m], envs)) <==>
                w.daemons[m].disk.number < w'.server.lastSeq[host] && !PurgedNewest(w'.server, w'.daemons[m]))
  {
    var left, leftFor := w.daemons[m].disk, w.daemons[m].diskFor;
    var w1 := Step(parse, w, AtDaemon(m, Enrol(host)));
    assert w.server.past != [];
    EnrolledSince(parse, w, m, host);
    SinceRun(parse, w1, es, m, host, left, leftFor);
    var w' := Run(parse, w1, es);
    hide ServerOk, DaemonOk, LastIsCurrent, HasNewest, Run, Step, PurgedNewest, InSync, CellSince, DispatchAll;
    SinceSyncs(parse, w'.server, host, left, leftFor, w'.daemons[m], envs);
  }

  lemma SinceSyncs(
    parse: Parser, c: Server, host: Uuid, left: Cell<View>, leftFor: Uuid, d: Daemon, envs: seq<Envelope>)
    requires ServerOk(parse, c) && Since(parse, c, host, left, leftFor, d) && leftFor != host
    requires LastIsCurrent(parse, c, host) && HasNewest(c, host, envs)
    ensures InSync(c, host, DispatchAll(parse, c.stamps, d, envs)) <==>
            left.number < c.lastSeq[host] && !PurgedNewest(c, d)
  {
    DeliverySyncsIff(parse, c, d, envs);
    if d.mem.number == c.lastSeq[host] && d.memFor == host && d.mem.value != map[] {
      OneStamp(parse, c, host, d.mem.number, d.mem.value, AccessView(Current(c), host));
    }
    hide ServerOk, DispatchAll, AccessView;
  }

  // ---------------------------------------------------------------------------
  // A run that stays behind

  /** In every database with two hosts, a machine enrolled first as the one and then as the
      other keeps the access of the first after the newest snapshot of the second. */
  lemma EnrolledTwiceStaysBehind(parse: Parser, t: Tables, p: Push, p': Push, m: nat, saved: bool)
    requires Valid(t) && Documents(parse, t, p) && Documents(parse, t, p') && p.host != p'.host
    ensures var w := Run(parse, Init(t), Taking(m, p, true) + Taking(m, p', saved));
            && LastIsCurrent(parse, w.server, p'.host) && m in w.daemons
            && w.daemons[m].host == p'.host && w.daemons[m].memFor == p.host
            && w.daemons[m].mem == Cell(1, AccessView(t, p.host))
            && !InSync(w.server, p'.host, w.daemons[m])
  {
    var w0 := Init(t);
    InitOk(parse, t);
    BuildYieldsView(t, p.host, p.entries);
    assert Current(w0.server) == t && w0.server.lastSeq[p.host] == 0 == w0.server.lastSeq[p'.host];
    hide Valid, AccessView, LastIsCurrent, PushStep, Run, Taking, IsBuild, EnvelopeOf;
    TakingIsRun(parse, w0, p, m, true);
    PushedFirst(parse, w0.server, p);
    var w1 := Run(parse, w0, Taking(m, p, true));
    FirstTaken(parse, w1.server, p);
    hide ServerOk, Inv;
    TakingIsRun(parse, w1, p', m, saved);
    PushedFirst(parse, w1.server, p');
    var d := Enrolled(w1, m, p'.host);
    RunJoined(parse, w0, Taking(m, p, true), Taking(m, p', saved));
    var c2 := PushStep(parse, w1.server, p');
    StampedIsTaken(parse, c2, d, First(p'), saved, Stamp(SnapshotKind, p'.host, 1, p'.data));
  }
}
