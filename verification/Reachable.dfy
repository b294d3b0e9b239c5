/** Runs from the start that reach both sides of the reconnect condition. */
module Reachable {
  import opened Wire
  import opened Register
  import opened Directory
  import opened Requests
  import opened Replication
  import opened Convergence
  import opened Reconnect
  import Schedules

  lemma RunThen(parse: Parser, w: World, es: seq<Event>, e: Event)
    requires w.server.past != []
    ensures Run(parse, w, es + [e]) == Step(parse, Run(parse, w, es), e)
  {
    assert (es + [e])[..|es|] == es;
  }

  lemma RunNone(parse: Parser, w: World)
    requires w.server.past != []
    ensures Run(parse, w, []) == w
  {}

  lemma InitOk(parse: Parser, t: Tables)
    requires Valid(t)
    ensures Inv(parse, Init(t))
  {}

  /** A machine enrols and a connecting handler pushes. */
  function Connecting(m: nat, p: Push): seq<Event> {
    [AtDaemon(m, Enrol(p.host))] + [AtServer(Read(p.host, p.entries))]
    + [AtServer(StampSnapshot(Build(p.host, p.entries), p.data))]
  }

  /** The machine right after enrolling. */
  ghost function Enrolled(w: World, m: nat, host: Uuid): Daemon {
    if m in w.daemons
    then w.daemons[m].(host := host, mem := w.daemons[m].disk, memFor := w.daemons[m].diskFor)
    else Fresh(host)
  }

  lemma EnrolsFirst(parse: Parser, w: World, m: nat, host: Uuid)
    requires w.server.past != [] && host in Current(w.server).hosts
    ensures Run(parse, w, [AtDaemon(m, Enrol(host))]) == w.(daemons := w.daemons[m := Enrolled(w, m, host)])
  {
    var e := AtDaemon(m, Enrol(host));
    RunNone(parse, w);
    RunThen(parse, w, [], e);
    assert [] + [e] == [e];
    hide Run, Serve, Dispatch;
  }

  lemma ConnectingIsRun(parse: Parser, w: World, p: Push, m: nat)
    requires w.server.past != [] && p.host in Current(w.server).hosts
    ensures Run(parse, w, Connecting(m, p)) ==
            World(PushStep(parse, w.server, p), w.daemons[m := Enrolled(w, m, p.host)])
  {
    hide Run, Serve, Dispatch, Enrolled;
    var e1, e2 := AtDaemon(m, Enrol(p.host)), AtServer(Read(p.host, p.entries));
    EnrolsFirst(parse, w, m, p.host);
    RunThen(parse, w, [e1], e2);
    RunThen(parse, w, [e1] + [e2], AtServer(StampSnapshot(Build(p.host, p.entries), p.data)));
  }

  /** A snapshot of the first state stamped and lost, the view moved since. */
  function LostPush(m: nat, p: Push, next: Tables): seq<Event> {
    Connecting(m, p) + [AtServer(Commit(next))]
  }

  /** A snapshot of the first state read, the view moved since, the handler still to stamp. */
  function HeldBuild(m: nat, p: Push, next: Tables): seq<Event> {
    [AtDaemon(m, Enrol(p.host))] + [AtServer(Read(p.host, p.entries))] + [AtServer(Commit(next))]
  }

  /** A document of the host's rows in a state. */
  ghost predicate Documents(parse: Parser, t: Tables, p: Push) {
    IsBuild(t, p.host, p.entries) && parse(p.data) == Some(p.entries)
  }

  lemma Committed(parse: Parser, c: Server, next: Tables, p: Push)
    requires c.past != [] && MayCommit(Current(c), next) && p.host in Current(c).hosts && p.host in c.lastSeq
    requires c.lastSeq[p.host] < BIGINT_MAX && Documents(parse, next, p)
    ensures var c' := Serve(parse, c, Commit(next));
            && PushOk(parse, c', p) && Current(c') == next && c'.lastSeq[p.host] == c.lastSeq[p.host]
            && c'.stamps == c.stamps && c'.builds == c.builds
  {
    hide IsBuild, Valid;
  }

  lemma LostPushIsRun(parse: Parser, t: Tables, next: Tables, p: Push, m: nat)
    requires Valid(t) && Documents(parse, t, p)
    ensures Run(parse, Init(t), LostPush(m, p, next)) ==
            World(Serve(parse, PushStep(parse, Init(t).server, p), Commit(next)), map[m := Fresh(p.host)])
  {
    Documented(parse, t, p);
    hide Run, Serve, PushStep, Connecting, Documents, Valid;
    ConnectingIsRun(parse, Init(t), p, m);
    RunThen(parse, Init(t), Connecting(m, p), AtServer(Commit(next)));
  }

  lemma Documented(parse: Parser, t: Tables, p: Push)
    requires Documents(parse, t, p)
    ensures p.host in t.hosts
  {}

  lemma HeldBuildIsRun(parse: Parser, t: Tables, next: Tables, p: Push, m: nat)
    requires Valid(t) && Documents(parse, t, p)
    ensures var c1 := Serve(parse, Init(t).server, Read(p.host, p.entries));
            Run(parse, Init(t), HeldBuild(m, p, next)) ==
            World(Serve(parse, c1, Commit(next)), map[m := Fresh(p.host)])
  {
    Documented(parse, t, p);
    hide Run, Serve, Documents, Valid;
    var e1, e2, e3 := AtDaemon(m, Enrol(p.host)), AtServer(Read(p.host, p.entries)), AtServer(Commit(next));
    EnrolsFirst(parse, Init(t), m, p.host);
    RunThen(parse, Init(t), [e1], e2);
    RunThen(parse, Init(t), [e1] + [e2], e3);
  }

  /** One host, one user, one key and one direct grant, all under one identifier. */
  function OneLogin(k: PublicKey, status: Status): Tables {
    Tables(map[k.user := User("", status)], map[k.user := k],
           map[k.user := Grant(k.user, HostAccess, OnHost(k.user), false)], {}, {}, map[k.user := Host([], true)])
  }

  lemma OneLoginIsValid(k: PublicKey)
    requires IsKey(k)
    ensures Valid(OneLogin(k, Active)) && MayCommit(OneLogin(k, Active), OneLogin(k, Suspended))
  {
    hide IsKey;
  }

  lemma OneLoginKeys(k: PublicKey)
    ensures HostAccessKeys(OneLogin(k, Active), k.user) == {k} && HostAccessKeys(OneLogin(k, Suspended), k.user) == {}
  {
    var t := OneLogin(k, Active);
    assert Joined(t, k.user, t.grants[k.user], t.keys[k.user]);
  }

  /** Suspending the user moves the view, so what follows is not about nothing. */
  lemma SuspensionMovesView(k: PublicKey)
    requires IsKey(k)
    ensures Valid(OneLogin(k, Active)) && MayCommit(OneLogin(k, Active), OneLogin(k, Suspended))
    ensures AccessView(OneLogin(k, Active), k.user) != AccessView(OneLogin(k, Suspended), k.user)
  {
    OneLoginIsValid(k);
    OneLoginKeys(k);
    hide HostAccessKeys, IsKey, MayCommit;
    assert k.fingerprint in AccessView(OneLogin(k, Active), k.user) by {
      assert k in HostAccessKeys(OneLogin(k, Active), k.user);
    }
    assert k.fingerprint !in AccessView(OneLogin(k, Suspended), k.user);
  }

  /** For every change of the view: the older view is stamped, nobody holds a build, and the
      next connect restores the new view. */
  lemma LostPushIsRepaired(parse: Parser, t: Tables, next: Tables, p: Push, p': Push, m: nat)
    requires Valid(t) && MayCommit(t, next) && p'.host == p.host
    requires Documents(parse, t, p) && Documents(parse, next, p')
    requires AccessView(t, p.host) != AccessView(next, p.host)
    ensures var w := Run(parse, Init(t), LostPush(m, p, next));
            && Inv(parse, w) && PushOk(parse, w.server, p') && NotAhead(w, m, p.host)
            && Current(w.server) == next && Stamped(parse, w.server.stamps, p.host, 1, AccessView(t, p.host))
            && NoStaleBuild(w.server, p.host) && Holds(w, m, map[])
            && AlwaysRestores(parse, w, p', m)
  {
    var c0 := Init(t).server;
    var c1 := PushStep(parse, c0, p);
    LostPushIsRun(parse, t, next, p, m);
    var w := Run(parse, Init(t), LostPush(m, p, next));
    InitOk(parse, t);
    RunKeepsInv(parse, Init(t), LostPush(m, p, next));
    PushEffect(parse, c0, p);
    BuildYieldsView(t, p.host, p.entries);
    assert Stamp(SnapshotKind, p.host, 1, p.data) in c1.stamps;
    Committed(parse, c1, next, p');
    hide Run, Serve, PushStep, IsBuild, ByFingerprint, AccessView;
    assert Marshals(parse, w.server);
    ReconnectRestoresIff(parse, w, p', m);
  }

  /** For every change of the view: one handler holds the older build, and the next connect
      does not always restore the new view. */
  lemma HeldBuildSpoils(parse: Parser, t: Tables, next: Tables, p: Push, p': Push, m: nat)
    requires Valid(t) && MayCommit(t, next) && p'.host == p.host
    requires Documents(parse, t, p) && Documents(parse, next, p')
    requires AccessView(t, p.host) != AccessView(next, p.host)
    ensures var w := Run(parse, Init(t), HeldBuild(m, p, next));
            && Inv(parse, w) && PushOk(parse, w.server, p') && NotAhead(w, m, p.host)
            && w.server.builds == multiset{Build(p.host, p.entries)}
            && !NoStaleBuild(w.server, p.host) && !AlwaysRestores(parse, w, p', m)
  {
    var c0 := Init(t).server;
    var c1 := Serve(parse, c0, Read(p.host, p.entries));
    assert c1 == c0.(builds := multiset{Build(p.host, p.entries)});
    BuildYieldsView(t, p.host, p.entries);
    HeldBuildIsRun(parse, t, next, p, m);
    InitOk(parse, t);
    RunKeepsInv(parse, Init(t), HeldBuild(m, p, next));
    Committed(parse, c1, next, p');
    var w := Run(parse, Init(t), HeldBuild(m, p, next));
    hide Run, Serve, IsBuild, ByFingerprint, AccessView, Inv, HeldBuild, MayCommit, Valid, PushOk, AlwaysRestores;
    assert Build(p.host, p.entries) in w.server.builds && !NoStaleBuild(w.server, p.host);
    assert Marshals(parse, w.server);
    ReconnectRestoresIff(parse, w, p', m);
  }

  // ---------------------------------------------------------------------------
  // A machine in sync

  /** A machine enrols, a connecting handler pushes, and the first snapshot arrives. */
  function Taking(m: nat, p: Push, saved: bool): seq<Event> {
    Connecting(m, p) + [AtDaemon(m, Deliver(First(p), saved))]
  }

  /** The first envelope of a host. */
  function First(p: Push): Envelope {
    EnvelopeOf(Stamp(SnapshotKind, p.host, 1, p.data))
  }

  lemma FirstTaken(parse: Parser, c: Server, p: Push)
    requires ServerOk(parse, c) && Stamp(SnapshotKind, p.host, 1, p.data) in c.stamps
    requires parse(p.data) == Some(p.entries)
    ensures var d := Dispatch(parse, c.stamps, Fresh(p.host), First(p), true);
            d == Daemon(p.host, Cell(1, ByFingerprint(p.entries)), p.host, Cell(1, ByFingerprint(p.entries)), p.host)
  {
    StampedIsTaken(parse, c, Fresh(p.host), First(p), true, Stamp(SnapshotKind, p.host, 1, p.data));
  }

  lemma {:induction false} RunJoined(parse: Parser, w: World, a: seq<Event>, b: seq<Event>)
    requires w.server.past != []
    ensures Run(parse, w, a + b) == Run(parse, Run(parse, w, a), b)
  {
    hide Step;
    if b == [] {
      assert a + b == a;
    } else {
      assert (a + b)[..|a + b| - 1] == a + b[..|b| - 1];
      RunJoined(parse, w, a, b[..|b| - 1]);
    }
  }

  lemma TakingIsRun(parse: Parser, w: World, p: Push, m: nat, saved: bool)
    requires w.server.past != [] && p.host in Current(w.server).hosts
    ensures var c := PushStep(parse, w.server, p);
            Run(parse, w, Taking(m, p, saved)) ==
            World(c, w.daemons[m := Dispatch(parse, c.stamps, Enrolled(w, m, p.host), First(p), saved)])
  {
    hide Run, PushStep, Connecting, Dispatch, EnvelopeOf;
    ConnectingIsRun(parse, w, p, m);
    RunThen(parse, w, Connecting(m, p), AtDaemon(m, Deliver(First(p), saved)));
  }

  lemma PushedFirst(parse: Parser, c: Server, p: Push)
    requires ServerOk(parse, c) && Documents(parse, Current(c), p) && p.host in c.lastSeq && c.lastSeq[p.host] == 0
    ensures var c' := PushStep(parse, c, p);
            && ServerOk(parse, c') && LastIsCurrent(parse, c', p.host)
            && Stamp(SnapshotKind, p.host, 1, p.data) in c'.stamps
            && c'.lastSeq == c.lastSeq[p.host := 1] && Current(c') == Current(c)
  {
    TwoStepsKeep(parse, c, Read(p.host, p.entries), StampSnapshot(Build(p.host, p.entries), p.data));
    PushEffect(parse, c, p);
    PushMakesCurrent(parse, c, p, p.host);
    hide ServerOk, LastIsCurrent, PushStep;
  }

  /** A machine that has taken the first snapshot of the first state. */
  lemma TakenInSync(parse: Parser, t: Tables, p: Push, m: nat)
    requires Valid(t) && Documents(parse, t, p)
    ensures var w := Run(parse, Init(t), Taking(m, p, true));
            && Inv(parse, w) && w.server == PushStep(parse, Init(t).server, p) && m in w.daemons
            && LastIsCurrent(parse, w.server, p.host) && InSync(w.server, p.host, w.daemons[m])
            && w.server.builds == multiset{} && Current(w.server) == t
  {
    var w0 := Init(t);
    InitOk(parse, t);
    RunKeepsInv(parse, w0, Taking(m, p, true));
    BuildYieldsView(t, p.host, p.entries);
    assert Current(w0.server) == t && w0.server.lastSeq[p.host] == 0;
    hide Valid, AccessView, PushStep, Run, Taking, IsBuild, EnvelopeOf;
    TakingIsRun(parse, w0, p, m, true);
    PushedFirst(parse, w0.server, p);
    PushEffect(parse, w0.server, p);
    FirstTaken(parse, PushStep(parse, w0.server, p), p);
    hide ServerOk, LastIsCurrent, Dispatch, DaemonOk;
  }

  /** A machine enrolled and in sync, then any serialized run, all of its pushes to the machine
      lost: no build is held, so the next connect repairs them all. */
  lemma LostPushesReachable(parse: Parser, t: Tables, p: Push, xs: seq<Transaction>, m: nat)
    returns (es: seq<Event>)
    requires Valid(t) && Documents(parse, t, p)
    requires PerformAllOk(parse, PushStep(parse, Init(t).server, p), xs)
    ensures var w1 := Run(parse, Init(t), Taking(m, p, true));
            var w := Run(parse, w1, es);
            && w == Run(parse, Init(t), Taking(m, p, true) + es)
            && m in w1.daemons && InSync(w1.server, p.host, w1.daemons[m])
            && w == World(PerformAll(parse, w1.server, xs), w1.daemons)
            && Inv(parse, w) && p.host in Current(w.server).hosts
            && NoStaleBuild(w.server, p.host) && NotAhead(w, m, p.host)
  {
    var w1 := Run(parse, Init(t), Taking(m, p, true));
    TakenInSync(parse, t, p, m);
    var ses := Schedules.PerformAllServed(parse, w1.server, xs);
    es := Schedules.AtTheServer(ses);
    Schedules.ServedIsRun(parse, w1, ses);
    Schedules.SerializedLeavesNoBuild(parse, w1.server, xs);
    RunJoined(parse, Init(t), Taking(m, p, true), es);
    RunKeepsInv(parse, w1, es);
    hide Run, PerformAll, PerformAllOk, PushStep, LastIsCurrent, Schedules.ServeAll, Taking;
    LaterInSync(parse, w1, Run(parse, w1, es), m, p.host);
  }

  lemma LaterInSync(parse: Parser, w: World, w': World, m: nat, host: Uuid)
    requires Inv(parse, w) && Inv(parse, w') && Grows(w.server, w'.server) && w'.daemons == w.daemons
    requires m in w.daemons && InSync(w.server, host, w.daemons[m]) && w'.server.builds == multiset{}
    ensures host in Current(w'.server).hosts && NotAhead(w', m, host) && NoStaleBuild(w'.server, host)
  {
    OwnCacheIsNotAhead(parse, w', m);
  }
}
