/** What a (re)connect repairs while other handlers are in flight: everything, exactly
    when none of them still holds a build of an older view. */
module Reconnect {
  import opened Wire
  import opened Register
  import opened Directory
  import opened Replication
  import opened Convergence

  /** From number `n` on, everything held or stamped for the host is `v`. */
  ghost predicate SettledServer(parse: Parser, c: Server, host: Uuid, n: nat, v: View) {
    && c.past != [] && host in Current(c).hosts && AccessView(Current(c), host) == v
    && (forall b | b in c.builds && b.host == host :: ByFingerprint(b.entries) == v)
    && (forall s | s in c.stamps && s.kind == SnapshotKind && s.host == host && s.number >= n ::
          Contents(parse, s.data) == Some(v))
  }

  ghost predicate SettledDaemon(d: Daemon, host: Uuid, n: nat, v: View) {
    d.host == host && (d.mem.number >= n ==> d.mem.value == v)
  }

  ghost predicate Settled(parse: Parser, w: World, host: Uuid, n: nat, v: View, m: nat) {
    SettledServer(parse, w.server, host, n, v) && m in w.daemons && SettledDaemon(w.daemons[m], host, n, v)
  }

  /** The access state of the host does not move, the host is not revoked, and the
      daemon is neither restarted, re-enrolled nor rejected. */
  ghost predicate Calm(e: Event, host: Uuid, v: View, m: nat) {
    match e
    case AtServer(Commit(next)) => host in next.hosts ==> AccessView(next, host) == v
    case AtServer(StampEmpty(h, _)) => h != host
    case AtServer(_) => true
    case AtDaemon(m', de) => m' != m || de.Deliver?
  }

  lemma SettledServe(parse: Parser, c: Server, e: ServerEvent, host: Uuid, n: nat, v: View, m: nat)
    requires ServerOk(parse, c) && SettledServer(parse, c, host, n, v) && n <= c.lastSeq[host] + 1
    requires Calm(AtServer(e), host, v, m)
    ensures SettledServer(parse, Serve(parse, c, e), host, n, v)
  {
    match e {
      case Commit(next) => SettledCommit(parse, c, next, host, n, v);
      case Read(h, entries) => SettledRead(parse, c, h, entries, host, n, v);
      case _ => SettledStamp(parse, c, e, host, n, v);
    }
    hide Serve, ServerOk, SettledServer;
  }

  lemma SettledRead(parse: Parser, c: Server, h: Uuid, entries: seq<AccessEntry>, host: Uuid, n: nat, v: View)
    requires ServerOk(parse, c) && SettledServer(parse, c, host, n, v)
    ensures SettledServer(parse, Serve(parse, c, Read(h, entries)), host, n, v)
  {
    hide AccessView, ByFingerprint;
    if IsBuild(Current(c), h, entries) {
      BuildYieldsView(Current(c), h, entries);
    }
    hide IsBuild, Valid, ServerOk;
  }

  lemma SettledStamp(parse: Parser, c: Server, e: ServerEvent, host: Uuid, n: nat, v: View)
    requires c.past != [] && SettledServer(parse, c, host, n, v)
    requires !e.Commit? && !e.Read? && (e.StampEmpty? ==> e.host != host)
    ensures SettledServer(parse, Serve(parse, c, e), host, n, v)
  {
    hide AccessView, ByFingerprint, IsBuild, Valid, MayCommit, Extended;
  }

  lemma SettledCommit(parse: Parser, c: Server, next: Tables, host: Uuid, n: nat, v: View)
    requires SettledServer(parse, c, host, n, v) && (host in next.hosts ==> AccessView(next, host) == v)
    ensures SettledServer(parse, Serve(parse, c, Commit(next)), host, n, v)
  {
    hide AccessView, ByFingerprint, Valid, Extended;
    if MayCommit(Current(c), next) {
      assert Current(Serve(parse, c, Commit(next))) == next;
    }
  }

  lemma SettledDispatch(parse: Parser, c: Server, d: Daemon, env: Envelope, saved: bool, n: nat, v: View)
    requires ServerOk(parse, c) && SettledServer(parse, c, d.host, n, v) && SettledDaemon(d, d.host, n, v)
    ensures SettledDaemon(Dispatch(parse, c.stamps, d, env, saved), d.host, n, v)
  {
    if env.kind == SnapshotKind && Verifies(c.stamps, d.host, env) {
      VerifiedIsStamped(parse, c, d.host, env);
    }
  }

  lemma SettledStep(parse: Parser, w: World, e: Event, host: Uuid, n: nat, v: View, m: nat)
    requires Inv(parse, w) && Settled(parse, w, host, n, v, m) && Calm(e, host, v, m)
    requires n <= w.server.lastSeq[host] + 1
    ensures Settled(parse, Step(parse, w, e), host, n, v, m)
  {
    match e {
      case AtServer(se) => SettledServe(parse, w.server, se, host, n, v, m);
      case AtDaemon(m', de) =>
        if m' == m {
          SettledDispatch(parse, w.server, w.daemons[m], de.env, de.saved, n, v);
        }
    }
  }

  lemma {:induction false} SettledRun(parse: Parser, w: World, es: seq<Event>, host: Uuid, n: nat, v: View, m: nat)
    requires Inv(parse, w) && Settled(parse, w, host, n, v, m)
    requires n <= w.server.lastSeq[host] + 1
    requires forall e | e in es :: Calm(e, host, v, m)
    ensures Settled(parse, Run(parse, w, es), host, n, v, m)
  {
    if es != [] {
      var init, last := es[..|es| - 1], es[|es| - 1];
      assert last in es;
      SettledRun(parse, w, init, host, n, v, m);
      RunKeepsInv(parse, w, init);
      SettledStep(parse, Run(parse, w, init), last, host, n, v, m);
    }
  }

  /** A stamped snapshot is refused exactly when its number has been reached already. */
  lemma StampedIsTaken(parse: Parser, c: Server, d: Daemon, env: Envelope, saved: bool, s: Stamp)
    requires ServerOk(parse, c) && s in c.stamps && IsEnvelopeOf(env, d.host, s)
    ensures var d' := Dispatch(parse, c.stamps, d, env, saved);
            if d.mem.number < s.number
            then d'.mem.number == s.number && Contents(parse, s.data) == Some(d'.mem.value) && d'.memFor == d.host
            else d' == d
  {
    assert StampNumberOk(c, s) && StampContentOk(parse, c, s);
    assert Verifies(c.stamps, d.host, env);
  }

  /** No handler still holds a build of an older view of the host. */
  ghost predicate NoStaleBuild(c: Server, host: Uuid)
    requires c.past != [] && host in Current(c).hosts
  {
    forall b | b in c.builds && b.host == host :: ByFingerprint(b.entries) == AccessView(Current(c), host)
  }

  ghost predicate Holds(w: World, m: nat, v: View) {
    m in w.daemons && w.daemons[m].mem.value == v
  }

  /** The world after the connecting handler pushed. */
  ghost function Pushed(parse: Parser, w: World, p: Push): (w': World)
    requires w.server.past != []
    ensures w'.server.past != []
  {
    w.(server := PushStep(parse, w.server, p))
  }

  /** The stamp a push makes. */
  function PushStamp(c: Server, p: Push): Stamp
    requires p.host in c.lastSeq
  {
    Stamp(SnapshotKind, p.host, c.lastSeq[p.host] + 1, p.data)
  }

  /** The machine is configured for the host and holds no number above its counter, as
      every machine does whose cache came from that host id. */
  ghost predicate NotAhead(w: World, m: nat, host: Uuid) {
    && m in w.daemons && w.daemons[m].host == host
    && host in w.server.lastSeq && w.daemons[m].mem.number <= w.server.lastSeq[host]
  }

  lemma OwnCacheIsNotAhead(parse: Parser, w: World, m: nat)
    requires Inv(parse, w) && m in w.daemons && w.daemons[m].memFor == w.daemons[m].host
    ensures NotAhead(w, m, w.daemons[m].host)
  {
    assert DaemonOk(parse, w.server, w.daemons[m]);
  }

  lemma PushSettles(parse: Parser, w: World, p: Push, m: nat)
    requires Inv(parse, w) && PushOk(parse, w.server, p) && NoStaleBuild(w.server, p.host)
    requires NotAhead(w, m, p.host)
    ensures Settled(parse, Pushed(parse, w, p), p.host, w.server.lastSeq[p.host] + 1,
                    AccessView(Current(w.server), p.host), m)
  {
    var c := w.server;
    PushEffect(parse, c, p);
    BuildYieldsView(Current(c), p.host, p.entries);
    assert forall s | s in c.stamps && s.kind == SnapshotKind && s.host == p.host :: StampNumberOk(c, s);
  }

  lemma PushedOk(parse: Parser, w: World, p: Push)
    requires Inv(parse, w) && PushOk(parse, w.server, p)
    ensures Inv(parse, Pushed(parse, w, p)) && PushStamp(w.server, p) in PushStep(parse, w.server, p).stamps
  {
    var c' := PushStep(parse, w.server, p);
    TwoStepsKeep(parse, w.server, Read(p.host, p.entries), StampSnapshot(Build(p.host, p.entries), p.data));
    PushEffect(parse, w.server, p);
    forall m | m in w.daemons
      ensures DaemonOk(parse, c', w.daemons[m])
    {
      DaemonStays(parse, w.server, c', w.daemons[m]);
    }
  }

  /** However many pushes were lost before, the snapshot stamped at a (re)connect
      brings the cache back to the current view: whatever else is built, stamped and
      delivered meanwhile, its delivery leaves the daemon holding that view. */
  lemma ReconnectRestores(parse: Parser, w: World, p: Push, m: nat, es: seq<Event>, env: Envelope, saved: bool)
    requires Inv(parse, w) && PushOk(parse, w.server, p) && NoStaleBuild(w.server, p.host)
    requires NotAhead(w, m, p.host)
    requires forall e | e in es :: Calm(e, p.host, AccessView(Current(w.server), p.host), m)
    requires IsEnvelopeOf(env, p.host, PushStamp(w.server, p))
    ensures var w' := Step(parse, Run(parse, Pushed(parse, w, p), es), AtDaemon(m, Deliver(env, saved)));
            Settled(parse, w', p.host, w.server.lastSeq[p.host] + 1, AccessView(Current(w.server), p.host), m)
            && Holds(w', m, AccessView(Current(w'.server), p.host))
  {
    var host, n, v := p.host, w.server.lastSeq[p.host] + 1, AccessView(Current(w.server), p.host);
    var w1 := Pushed(parse, w, p);
    PushSettles(parse, w, p, m);
    PushedOk(parse, w, p);
    PushEffect(parse, w.server, p);
    SettledRun(parse, w1, es, host, n, v, m);
    RunKeepsInv(parse, w1, es);
    SettledDelivery(parse, Run(parse, w1, es), host, n, v, m, env, saved, PushStamp(w.server, p));
  }

  lemma SettledDelivery(
    parse: Parser, w: World, host: Uuid, n: nat, v: View, m: nat, env: Envelope, saved: bool, s: Stamp)
    requires Inv(parse, w) && Settled(parse, w, host, n, v, m)
    requires s in w.server.stamps && s.number == n && IsEnvelopeOf(env, host, s)
    ensures var w' := Step(parse, w, AtDaemon(m, Deliver(env, saved)));
            Settled(parse, w', host, n, v, m) && Holds(w', m, v)
  {
    SettledDispatch(parse, w.server, w.daemons[m], env, saved, n, v);
    StampedIsTaken(parse, w.server, w.daemons[m], env, saved, s);
  }

  // ---------------------------------------------------------------------------
  // The condition is exact

  lemma RunOfTwo(parse: Parser, w: World, e1: Event, e2: Event)
    requires w.server.past != []
    ensures Run(parse, w, [e1, e2]) == Step(parse, Step(parse, w, e1), e2)
  {
    assert [e1, e2][..1] == [e1];
    assert Run(parse, w, [e1]) == Step(parse, w, e1) by { assert [e1][..0] == []; }
  }

  /** Let one handler still hold a build of another view: it may stamp after the
      reconnect and win with the older content, although nothing the daemon is
      entitled to changed since. Higher numbers mean newer content only when reading
      and stamping are not interleaved. */
  lemma StaleBuildSpoilsReconnect(
    parse: Parser, w: World, p: Push, m: nat, b: Build, data: Bytes, stale: Envelope, env: Envelope, saved: bool)
    requires Inv(parse, w) && PushOk(parse, w.server, p) && w.server.lastSeq[p.host] + 1 < BIGINT_MAX
    requires NotAhead(w, m, p.host)
    requires b in w.server.builds && b.host == p.host && parse(data) == Some(b.entries)
    requires ByFingerprint(b.entries) != AccessView(Current(w.server), p.host)
    requires IsEnvelopeOf(env, p.host, PushStamp(w.server, p))
    requires IsEnvelopeOf(stale, p.host, Stamp(SnapshotKind, p.host, w.server.lastSeq[p.host] + 2, data))
    ensures !NoStaleBuild(w.server, p.host)
    ensures forall e | e in Overtaking(b, data, m, stale, saved) ::
              Calm(e, p.host, AccessView(Current(w.server), p.host), m)
    ensures var w' := Run(parse, Pushed(parse, w, p), Overtaking(b, data, m, stale, saved));
            Holds(Step(parse, w', AtDaemon(m, Deliver(env, saved))), m, ByFingerprint(b.entries))
  {
    var s := Stamp(SnapshotKind, p.host, w.server.lastSeq[p.host] + 2, data);
    StaleStamped(parse, w, p, b, data);
    StaleWins(parse, Pushed(parse, w, p), m, b, data, stale, env, saved, s);
    OvertakingIsCalm(b, data, m, stale, saved, p.host, AccessView(Current(w.server), p.host));
  }

  lemma OvertakingIsCalm(b: Build, data: Bytes, m: nat, stale: Envelope, saved: bool, host: Uuid, v: View)
    ensures forall e | e in Overtaking(b, data, m, stale, saved) :: Calm(e, host, v, m)
  {
    forall e | e in Overtaking(b, data, m, stale, saved)
      ensures Calm(e, host, v, m)
    {
      assert e == AtServer(StampSnapshot(b, data)) || e == AtDaemon(m, Deliver(stale, saved));
    }
  }

  lemma StaleWins(
    parse: Parser, w: World, m: nat, b: Build, data: Bytes, stale: Envelope, env: Envelope, saved: bool, s: Stamp)
    requires w.server.past != [] && m in w.daemons
    requires ServerOk(parse, Serve(parse, w.server, StampSnapshot(b, data)))
    requires s in Serve(parse, w.server, StampSnapshot(b, data)).stamps && IsEnvelopeOf(stale, w.daemons[m].host, s)
    requires parse(s.data) == Some(b.entries)
    requires w.daemons[m].mem.number < s.number && 0 < env.number < s.number
    ensures Holds(Step(parse, Run(parse, w, Overtaking(b, data, m, stale, saved)), AtDaemon(m, Deliver(env, saved))),
                  m, ByFingerprint(b.entries))
  {
    var c2 := Serve(parse, w.server, StampSnapshot(b, data));
    StaleTaken(parse, c2, w.daemons[m], stale, env, saved, s);
    RunOfTwo(parse, w, AtServer(StampSnapshot(b, data)), AtDaemon(m, Deliver(stale, saved)));
    TwoDeliveries(parse, w.(server := c2), m, stale, env, saved);
  }

  lemma TwoDeliveries(parse: Parser, w: World, m: nat, env1: Envelope, env2: Envelope, saved: bool)
    requires w.server.past != [] && m in w.daemons
    ensures var w' := Step(parse, Step(parse, w, AtDaemon(m, Deliver(env1, saved))), AtDaemon(m, Deliver(env2, saved)));
            var stamps := w.server.stamps;
            var d := Dispatch(parse, stamps, Dispatch(parse, stamps, w.daemons[m], env1, saved), env2, saved);
            Holds(w', m, d.mem.value)
  {
  }

  /** The stale handler stamps, and its snapshot arrives. */
  function Overtaking(b: Build, data: Bytes, m: nat, stale: Envelope, saved: bool): seq<Event> {
    [AtServer(StampSnapshot(b, data)), AtDaemon(m, Deliver(stale, saved))]
  }

  lemma StampedOk(parse: Parser, c: Server, b: Build, data: Bytes)
    requires ServerOk(parse, c) && b in c.builds && parse(data) == Some(b.entries)
    requires b.host in c.lastSeq && c.lastSeq[b.host] < BIGINT_MAX
    ensures var c' := Serve(parse, c, StampSnapshot(b, data));
            ServerOk(parse, c') && Stamp(SnapshotKind, b.host, c.lastSeq[b.host] + 1, data) in c'.stamps
  {
    ServeOk(parse, c, StampSnapshot(b, data));
  }

  lemma StaleStamped(parse: Parser, w: World, p: Push, b: Build, data: Bytes)
    requires Inv(parse, w) && PushOk(parse, w.server, p) && w.server.lastSeq[p.host] + 1 < BIGINT_MAX
    requires b in w.server.builds && b.host == p.host && parse(data) == Some(b.entries)
    ensures var c2 := Serve(parse, PushStep(parse, w.server, p), StampSnapshot(b, data));
            ServerOk(parse, c2) && Stamp(SnapshotKind, p.host, w.server.lastSeq[p.host] + 2, data) in c2.stamps
  {
    hide ServerOk, DaemonOk, IsBuild, Serve, PushStep;
    PushEffect(parse, w.server, p);
    PushedOk(parse, w, p);
    StampedOk(parse, PushStep(parse, w.server, p), b, data);
  }

  /** After the higher-numbered snapshot, the lower-numbered one is dropped. */
  lemma StaleTaken(parse: Parser, c: Server, d: Daemon, stale: Envelope, env: Envelope, saved: bool, s: Stamp)
    requires ServerOk(parse, c) && s in c.stamps && IsEnvelopeOf(stale, d.host, s)
    requires d.mem.number < s.number && 0 < env.number < s.number
    ensures var d' := Dispatch(parse, c.stamps, Dispatch(parse, c.stamps, d, stale, saved), env, saved);
            Some(d'.mem.value) == Contents(parse, s.data)
  {
    StampedIsTaken(parse, c, d, stale, saved, s);
  }

  /** Whatever calm run follows the push, delivering its snapshot leaves the machine
      holding the view of the host. */
  ghost predicate AlwaysRestores(parse: Parser, w: World, p: Push, m: nat)
    requires PushOk(parse, w.server, p) && p.host in Current(w.server).hosts
  {
    var v := AccessView(Current(w.server), p.host);
    forall es, env, saved |
      (forall e | e in es :: Calm(e, p.host, v, m)) && IsEnvelopeOf(env, p.host, PushStamp(w.server, p)) ::
      Holds(Step(parse, Run(parse, Pushed(parse, w, p), es), AtDaemon(m, Deliver(env, saved))), m, v)
  }

  /** A held build can be marshalled. */
  ghost predicate Marshals(parse: Parser, c: Server) {
    forall b | b in c.builds :: exists data :: parse(data) == Some(b.entries)
  }

  /** A reconnect restores the view through every calm run exactly when no other handler
      holds a build of another view. */
  lemma ReconnectRestoresIff(parse: Parser, w: World, p: Push, m: nat)
    requires Inv(parse, w) && PushOk(parse, w.server, p) && w.server.lastSeq[p.host] + 1 < BIGINT_MAX
    requires NotAhead(w, m, p.host) && Marshals(parse, w.server)
    ensures AlwaysRestores(parse, w, p, m) <==> NoStaleBuild(w.server, p.host)
  {
    var v := AccessView(Current(w.server), p.host);
    if NoStaleBuild(w.server, p.host) {
      forall es, env, saved |
        (forall e | e in es :: Calm(e, p.host, v, m)) && IsEnvelopeOf(env, p.host, PushStamp(w.server, p))
        ensures Holds(Step(parse, Run(parse, Pushed(parse, w, p), es), AtDaemon(m, Deliver(env, saved))), m, v)
      {
        Restored(parse, w, p, m, es, env, saved);
      }
    } else {
      SpoiledSometimes(parse, w, p, m);
    }
  }

  lemma Restored(parse: Parser, w: World, p: Push, m: nat, es: seq<Event>, env: Envelope, saved: bool)
    requires Inv(parse, w) && PushOk(parse, w.server, p) && NoStaleBuild(w.server, p.host)
    requires NotAhead(w, m, p.host)
    requires forall e | e in es :: Calm(e, p.host, AccessView(Current(w.server), p.host), m)
    requires IsEnvelopeOf(env, p.host, PushStamp(w.server, p))
    ensures Holds(Step(parse, Run(parse, Pushed(parse, w, p), es), AtDaemon(m, Deliver(env, saved))), m,
                  AccessView(Current(w.server), p.host))
  {
    hide Inv, PushOk, NoStaleBuild, Calm, AccessView, IsEnvelopeOf, Step, Run, Pushed;
    ReconnectRestores(parse, w, p, m, es, env, saved);
  }

  lemma SpoiledSometimes(parse: Parser, w: World, p: Push, m: nat)
    requires Inv(parse, w) && PushOk(parse, w.server, p) && w.server.lastSeq[p.host] + 1 < BIGINT_MAX
    requires NotAhead(w, m, p.host) && Marshals(parse, w.server) && !NoStaleBuild(w.server, p.host)
    ensures !AlwaysRestores(parse, w, p, m)
  {
    var v, n := AccessView(Current(w.server), p.host), w.server.lastSeq[p.host];
    var b :| b in w.server.builds && b.host == p.host && ByFingerprint(b.entries) != v;
    var data :| parse(data) == Some(b.entries);
    var env := EnvelopeOf(PushStamp(w.server, p));
    var stale := EnvelopeOf(Stamp(SnapshotKind, p.host, n + 2, data));
    hide Inv, PushOk, NoStaleBuild, AccessView, ByFingerprint, EnvelopeOf, IsEnvelopeOf, Step, Run, Pushed, Calm,
      AlwaysRestores, Holds, Overtaking;
    StaleBuildSpoilsReconnect(parse, w, p, m, b, data, stale, env, true);
    NotAlways(parse, w, p, m, Overtaking(b, data, m, stale, true), env, true, ByFingerprint(b.entries));
  }

  lemma NotAlways(parse: Parser, w: World, p: Push, m: nat, es: seq<Event>, env: Envelope, saved: bool, v: View)
    requires PushOk(parse, w.server, p) && p.host in Current(w.server).hosts
    requires v != AccessView(Current(w.server), p.host)
    requires forall e | e in es :: Calm(e, p.host, AccessView(Current(w.server), p.host), m)
    requires IsEnvelopeOf(env, p.host, PushStamp(w.server, p))
    requires Holds(Step(parse, Run(parse, Pushed(parse, w, p), es), AtDaemon(m, Deliver(env, saved))), m, v)
    ensures !AlwaysRestores(parse, w, p, m)
  {
    assert w.server.past != [];
    hide PushOk, AccessView, IsEnvelopeOf, Step, Run, Pushed, Calm;
  }
}
