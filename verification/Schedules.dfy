/** A serialized run of requests is one schedule of the interleaved system: each
    transaction is a sequence of handler steps with nothing in between, and it leaves
    no handler holding a build. */
module Schedules {
  import opened Wire
  import opened Directory
  import opened Requests
  import opened Replication
  import opened Convergence

  ghost function ServeAll(parse: Parser, c: Server, es: seq<ServerEvent>): (c': Server)
    requires c.past != []
    ensures c'.past != []
  {
    if es == [] then c else Serve(parse, ServeAll(parse, c, es[..|es| - 1]), es[|es| - 1])
  }

  lemma {:induction false} ServeAllJoined(parse: Parser, c: Server, a: seq<ServerEvent>, b: seq<ServerEvent>)
    requires c.past != []
    ensures ServeAll(parse, c, a + b) == ServeAll(parse, ServeAll(parse, c, a), b)
  {
    hide Serve;
    if b == [] {
      assert a + b == a;
    } else {
      assert (a + b)[..|a + b| - 1] == a + b[..|b| - 1];
      ServeAllJoined(parse, c, a, b[..|b| - 1]);
    }
  }

  lemma ServeTwo(parse: Parser, c: Server, e1: ServerEvent, e2: ServerEvent)
    requires c.past != []
    ensures ServeAll(parse, c, [e1, e2]) == Serve(parse, Serve(parse, c, e1), e2)
  {
    hide Serve;
    assert [e1, e2][..1] == [e1] && [e1][..0] == [];
    assert ServeAll(parse, c, [e1]) == Serve(parse, c, e1);
  }

  function PushEvents(p: Push): seq<ServerEvent> {
    [Read(p.host, p.entries), StampSnapshot(Build(p.host, p.entries), p.data)]
  }

  function AllPushEvents(ps: seq<Push>): seq<ServerEvent> {
    if ps == [] then [] else AllPushEvents(ps[..|ps| - 1]) + PushEvents(ps[|ps| - 1])
  }

  lemma {:induction false} PushAllServed(parse: Parser, c: Server, ps: seq<Push>)
    requires c.past != []
    ensures ServeAll(parse, c, AllPushEvents(ps)) == PushAll(parse, c, ps)
  {
    hide Serve;
    if ps != [] {
      var init, p := ps[..|ps| - 1], ps[|ps| - 1];
      PushAllServed(parse, c, init);
      ServeAllJoined(parse, c, AllPushEvents(init), PushEvents(p));
      ServeTwo(parse, PushAll(parse, c, init), PushEvents(p)[0], PushEvents(p)[1]);
    }
  }

  /** The handler steps of one transaction. */
  ghost function EventsOf(c: Server, x: Transaction): seq<ServerEvent>
    requires c.past != []
  {
    match x
    case Request(r, ps) => [Commit(Handle(Current(c), r).tables)] + AllPushEvents(ps)
    case Connect(p) => PushEvents(p)
    case RevokeHost(h, data) => [Commit(Deactivated(Current(c), h)), StampEmpty(h, data)]
    case Extend(next) => [Commit(next)]
  }

  lemma ServeOne(parse: Parser, c: Server, e: ServerEvent)
    requires c.past != []
    ensures ServeAll(parse, c, [e]) == Serve(parse, c, e)
  {
    assert [e][..0] == [];
  }

  lemma PerformServed(parse: Parser, c: Server, x: Transaction)
    requires c.past != []
    ensures ServeAll(parse, c, EventsOf(c, x)) == Perform(parse, c, x)
  {
    hide Serve, Handle, ServeAll;
    match x {
      case Request(r, ps) =>
        var e := Commit(Handle(Current(c), r).tables);
        ServeAllJoined(parse, c, [e], AllPushEvents(ps));
        ServeOne(parse, c, e);
        PushAllServed(parse, Serve(parse, c, e), ps);
      case Connect(p) => ServeTwo(parse, c, PushEvents(p)[0], PushEvents(p)[1]);
      case RevokeHost(h, data) => ServeTwo(parse, c, Commit(Deactivated(Current(c), h)), StampEmpty(h, data));
      case Extend(next) => ServeOne(parse, c, Commit(next));
    }
  }

  /** Every serialized run is a run of handler steps. */
  lemma {:induction false} PerformAllServed(parse: Parser, c: Server, xs: seq<Transaction>)
    returns (es: seq<ServerEvent>)
    requires c.past != []
    ensures ServeAll(parse, c, es) == PerformAll(parse, c, xs)
  {
    hide Perform, ServeAll;
    if xs == [] {
      es := [];
      ServeNone(parse, c);
    } else {
      var init := PerformAllServed(parse, c, xs[..|xs| - 1]);
      var c1, x := PerformAll(parse, c, xs[..|xs| - 1]), xs[|xs| - 1];
      es := init + EventsOf(c1, x);
      ServeAllJoined(parse, c, init, EventsOf(c1, x));
      PerformServed(parse, c1, x);
    }
  }

  lemma ServeNone(parse: Parser, c: Server)
    requires c.past != []
    ensures ServeAll(parse, c, []) == c
  {}

  function AtTheServer(es: seq<ServerEvent>): seq<Event> {
    seq(|es|, i requires 0 <= i < |es| => AtServer(es[i]))
  }

  lemma {:induction false} ServedIsRun(parse: Parser, w: World, es: seq<ServerEvent>)
    requires w.server.past != []
    ensures Run(parse, w, AtTheServer(es)) == w.(server := ServeAll(parse, w.server, es))
  {
    hide Serve;
    if es != [] {
      var init := es[..|es| - 1];
      ServedIsRun(parse, w, init);
      assert AtTheServer(es)[..|es| - 1] == AtTheServer(init);
    }
  }

  // ---------------------------------------------------------------------------
  // No build outlives its handler

  lemma CommitKeepsBuilds(parse: Parser, c: Server, next: Tables)
    requires c.past != []
    ensures Serve(parse, c, Commit(next)).builds == c.builds
  {}

  lemma {:induction false} PushAllKeepsBuilds(parse: Parser, c: Server, ps: seq<Push>)
    requires c.past != [] && PushesOk(parse, c, ps)
    ensures PushAll(parse, c, ps).builds == c.builds
  {
    hide PushOk, PushStep;
    if ps != [] {
      var init := ps[..|ps| - 1];
      PushAllKeepsBuilds(parse, c, init);
      PushEffect(parse, PushAll(parse, c, init), ps[|ps| - 1]);
    }
  }

  lemma PerformKeepsBuilds(parse: Parser, c: Server, x: Transaction)
    requires c.past != [] && PerformOk(parse, c, x)
    ensures Perform(parse, c, x).builds == c.builds
  {
    hide Handle, PushStep, PushAll, PushesOk;
    match x {
      case Request(r, ps) =>
        CommitKeepsBuilds(parse, c, Handle(Current(c), r).tables);
        PushAllKeepsBuilds(parse, Serve(parse, c, Commit(Handle(Current(c), r).tables)), ps);
      case Connect(p) => PushEffect(parse, c, p);
      case RevokeHost(h, _) => CommitKeepsBuilds(parse, c, Deactivated(Current(c), h));
      case Extend(next) => CommitKeepsBuilds(parse, c, next);
    }
  }

  /** Serialized requests leave no handler holding a build, however many pushes they made. */
  lemma {:induction false} SerializedLeavesNoBuild(parse: Parser, c: Server, xs: seq<Transaction>)
    requires c.past != [] && PerformAllOk(parse, c, xs)
    ensures PerformAll(parse, c, xs).builds == c.builds
  {
    hide PerformOk, Perform;
    if xs != [] {
      SerializedLeavesNoBuild(parse, c, xs[..|xs| - 1]);
      PerformKeepsBuilds(parse, PerformAll(parse, c, xs[..|xs| - 1]), xs[|xs| - 1]);
    }
  }
}
