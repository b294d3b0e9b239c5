/** What a revoked host is last sent. Revocation stamps an empty snapshot, but neither
    pushSnapshot nor the key query looks at the host's status, so a later push stamps the
    host's view above it. */
module Revocation {
  import opened Wire
  import opened Register
  import opened Directory
  import opened Requests
  import opened Replication
  import opened Convergence

  /** The transaction stamps a snapshot for the host. */
  predicate Touches(x: Transaction, host: Uuid) {
    match x
    case Request(_, ps) => host in PushedHosts(ps)
    case Connect(p) => p.host == host
    case RevokeHost(h, _) => h == host
    case Extend(_) => false
  }

  /** A revocation whose empty snapshot can be stamped. */
  ghost predicate Stampable(parse: Parser, c: Server, x: Transaction) {
    x.RevokeHost? ==> parse(x.data) == Some([]) && x.host in c.lastSeq && c.lastSeq[x.host] < BIGINT_MAX
  }

  /** What it stamps: nothing for a revocation, else the view the host has after it. */
  ghost function Content(c': Server, x: Transaction, host: Uuid): View
    requires c'.past != [] && host in Current(c').hosts
  {
    if x.RevokeHost? then map[] else AccessView(Current(c'), host)
  }

  /** The newest stamp of the host holds `v`. */
  ghost predicate NewestHolds(parse: Parser, c: Server, host: Uuid, v: View) {
    host in c.lastSeq && Stamped(parse, c.stamps, host, c.lastSeq[host], v)
  }

  lemma CommitKeepsNewest(parse: Parser, c: Server, next: Tables, host: Uuid, v: View)
    requires TablesOk(c) && NewestHolds(parse, c, host, v)
    ensures NewestHolds(parse, Serve(parse, c, Commit(next)), host, v)
  {
    hide Valid;
  }

  lemma PushKeepsNewest(parse: Parser, c: Server, p: Push, host: Uuid, v: View)
    requires PushOk(parse, c, p) && p.host != host && NewestHolds(parse, c, host, v)
    ensures NewestHolds(parse, PushStep(parse, c, p), host, v)
  {
    PushEffect(parse, c, p);
    hide PushStep, PushOk;
  }

  lemma {:induction false} PushAllKeepsNewest(parse: Parser, c: Server, ps: seq<Push>, host: Uuid, v: View)
    requires c.past != [] && PushesOk(parse, c, ps) && host !in PushedHosts(ps) && NewestHolds(parse, c, host, v)
    ensures NewestHolds(parse, PushAll(parse, c, ps), host, v)
  {
    hide PushOk, PushStep, NewestHolds, PushedHosts;
    if ps != [] {
      OneMorePushed(ps);
      PushAllKeepsNewest(parse, c, ps[..|ps| - 1], host, v);
      PushKeepsNewest(parse, PushAll(parse, c, ps[..|ps| - 1]), ps[|ps| - 1], host, v);
    }
  }

  lemma EmptyKeepsNewest(parse: Parser, c: Server, h: Uuid, data: Bytes, host: Uuid, v: View)
    requires c.past != [] && h != host && NewestHolds(parse, c, host, v)
    ensures NewestHolds(parse, Serve(parse, c, StampEmpty(h, data)), host, v)
  {}

  /** A transaction that stamps nothing for the host leaves its newest stamp. */
  lemma UntouchedKeepsNewest(parse: Parser, c: Server, x: Transaction, host: Uuid, v: View)
    requires ServerOk(parse, c) && PerformOk(parse, c, x) && !Touches(x, host) && NewestHolds(parse, c, host, v)
    ensures NewestHolds(parse, Perform(parse, c, x), host, v)
  {
    assert c.past != [];
    hide NewestHolds, Serve, Handle, PushStep, PushOk, PushAll, PushesOk, PushedHosts, TablesOk;
    match x {
      case Request(r, ps) =>
        var next := Handle(Current(c), r).tables;
        CommitKeepsNewest(parse, c, next, host, v);
        PushAllKeepsNewest(parse, Serve(parse, c, Commit(next)), ps, host, v);
      case Connect(p) => PushKeepsNewest(parse, c, p, host, v);
      case RevokeHost(h, data) =>
        CommitKeepsNewest(parse, c, Deactivated(Current(c), h), host, v);
        EmptyKeepsNewest(parse, Serve(parse, c, Commit(Deactivated(Current(c), h))), h, data, host, v);
      case Extend(next) => CommitKeepsNewest(parse, c, next, host, v);
    }
  }

  lemma RevokeEmpties(parse: Parser, c: Server, host: Uuid, data: Bytes)
    requires ServerOk(parse, c) && Stampable(parse, c, RevokeHost(host, data))
    ensures NewestHolds(parse, Perform(parse, c, RevokeHost(host, data)), host, map[])
  {
    assert c.past != [];
    hide Serve, ServerOk, NewestHolds, Deactivated;
    var next := Deactivated(Current(c), host);
    CommitKeepsCounter(parse, c, next, host);
    EmptyHolds(parse, Serve(parse, c, Commit(next)), host, data);
  }

  lemma CommitKeepsCounter(parse: Parser, c: Server, next: Tables, host: Uuid)
    requires ServerOk(parse, c) && host in c.lastSeq
    ensures var c' := Serve(parse, c, Commit(next)); host in c'.lastSeq && c'.lastSeq[host] == c.lastSeq[host]
  {
    hide Valid, BuildsOk, StampsOk;
  }

  lemma EmptyHolds(parse: Parser, c: Server, host: Uuid, data: Bytes)
    requires c.past != [] && parse(data) == Some([]) && host in c.lastSeq && c.lastSeq[host] < BIGINT_MAX
    ensures NewestHolds(parse, Serve(parse, c, StampEmpty(host, data)), host, map[])
  {
    assert Stamp(SnapshotKind, host, c.lastSeq[host] + 1, data) in Serve(parse, c, StampEmpty(host, data)).stamps;
    assert Contents(parse, data) == Some(map[]);
  }

  lemma CurrentHolds(parse: Parser, c: Server, host: Uuid)
    requires LastIsCurrent(parse, c, host)
    ensures host in Current(c).hosts && NewestHolds(parse, c, host, AccessView(Current(c), host))
  {}

  /** A transaction that stamps for the host leaves its content as the newest. */
  lemma TouchedHoldsContent(parse: Parser, c: Server, x: Transaction, host: Uuid)
    requires ServerOk(parse, c) && PerformOk(parse, c, x) && Stampable(parse, c, x) && Touches(x, host)
    ensures var c' := Perform(parse, c, x);
            && c'.past != [] && host in Current(c').hosts
            && NewestHolds(parse, c', host, Content(c', x, host))
  {
    PerformKeeps(parse, c, x);
    var c' := Perform(parse, c, x);
    match x {
      case Request(r, ps) =>
        var e := Commit(Handle(Current(c), r).tables);
        ServeOk(parse, c, e);
        PushAllMakesCurrent(parse, Serve(parse, c, e), ps, host);
        CurrentHolds(parse, c', host);
      case Connect(p) =>
        PushMakesCurrent(parse, c, p, host);
        CurrentHolds(parse, c', host);
      case RevokeHost(_, data) => RevokeEmpties(parse, c, host, data);
      case _ =>
    }
    hide ServerOk, Perform, LastIsCurrent;
    NewestIsKnown(parse, c', host);
  }

  lemma NewestIsKnown(parse: Parser, c: Server, host: Uuid)
    requires ServerOk(parse, c)
    ensures c.past != [] && (host in c.lastSeq <==> host in Current(c).hosts)
  {}

  ghost predicate AllStampable(parse: Parser, c: Server, xs: seq<Transaction>)
    requires c.past != []
  {
    forall i | 0 <= i < |xs| :: Stampable(parse, PerformAll(parse, c, xs[..i]), xs[i])
  }

  /** The newest stamp of the host in `c'` is what transaction `x`, which led to `c1`, put there. */
  ghost predicate HoldsFrom(parse: Parser, c1: Server, x: Transaction, c': Server, host: Uuid) {
    && c1.past != [] && host in Current(c1).hosts && NewestHolds(parse, c', host, Content(c1, x, host))
  }

  lemma TouchedHoldsFrom(parse: Parser, c: Server, x: Transaction, host: Uuid)
    requires ServerOk(parse, c) && PerformOk(parse, c, x) && Stampable(parse, c, x) && Touches(x, host)
    ensures c.past != [] && HoldsFrom(parse, Perform(parse, c, x), x, Perform(parse, c, x), host)
  {
    assert c.past != [];
    hide ServerOk, PerformOk, Perform, NewestHolds, Stampable, Content, Touches;
    TouchedHoldsContent(parse, c, x, host);
  }

  lemma UntouchedHoldsFrom(parse: Parser, c1: Server, x: Transaction, c: Server, x': Transaction, host: Uuid)
    requires ServerOk(parse, c) && PerformOk(parse, c, x') && !Touches(x', host) && HoldsFrom(parse, c1, x, c, host)
    ensures c.past != [] && HoldsFrom(parse, c1, x, Perform(parse, c, x'), host)
  {
    assert c.past != [];
    hide ServerOk, PerformOk, Perform, NewestHolds, Content, Touches;
    UntouchedKeepsNewest(parse, c, x', host, Content(c1, x, host));
  }

  /** Over every serialized run, the newest stamp of a host is what the last transaction that
      stamped for it put there. */
  lemma {:induction false} NewestIsLastTouch(parse: Parser, c: Server, xs: seq<Transaction>, j: nat, host: Uuid)
    requires ServerOk(parse, c) && PerformAllOk(parse, c, xs) && AllStampable(parse, c, xs)
    requires j < |xs| && Touches(xs[j], host) && forall i | j < i < |xs| :: !Touches(xs[i], host)
    ensures c.past != []
    ensures HoldsFrom(parse, PerformAll(parse, c, xs[..j + 1]), xs[j], PerformAll(parse, c, xs), host)
  {
    hide ServerOk, HoldsFrom, PerformOk, Perform, Stampable, Touches, AllStampable, PerformAll, PerformAllOk;
    var init, last := xs[..|xs| - 1], xs[|xs| - 1];
    PerformAllStaysOk(parse, c, init);
    LastOfRun(parse, c, xs);
    if j == |init| {
      assert xs[..j + 1] == xs;
      TouchedHoldsFrom(parse, PerformAll(parse, c, init), last, host);
    } else {
      assert init[..j + 1] == xs[..j + 1];
      NewestIsLastTouch(parse, c, init, j, host);
      UntouchedHoldsFrom(parse, PerformAll(parse, c, xs[..j + 1]), xs[j], PerformAll(parse, c, init), last, host);
    }
  }

  lemma PerformAllStaysOk(parse: Parser, c: Server, xs: seq<Transaction>)
    requires ServerOk(parse, c)
    ensures c.past != [] && ServerOk(parse, PerformAll(parse, c, xs))
  {
    assert c.past != [];
    hide ServerOk, Perform, PerformAll;
    PerformAllKeeps(parse, c, xs);
  }

  lemma LastOfRun(parse: Parser, c: Server, xs: seq<Transaction>)
    requires c.past != [] && xs != [] && PerformAllOk(parse, c, xs) && AllStampable(parse, c, xs)
    ensures var init, last := xs[..|xs| - 1], xs[|xs| - 1];
            var c0 := PerformAll(parse, c, init);
            && PerformAllOk(parse, c, init) && AllStampable(parse, c, init)
            && PerformOk(parse, c0, last) && Stampable(parse, c0, last)
            && PerformAll(parse, c, xs) == Perform(parse, c0, last)
  {
    hide PerformOk, Perform, Stampable;
    var init := xs[..|xs| - 1];
    assert forall i | 0 <= i < |init| :: init[..i] == xs[..i];
  }

  /** After a revocation and any serialized run, the newest stamp of the host is empty exactly
      when the last transaction to stamp for it, the revocation or a later one, found nothing
      to stamp or was a revocation. */
  lemma RevokedIsEmptyIff(parse: Parser, c: Server, xs: seq<Transaction>, k: nat, j: nat, host: Uuid)
    requires ServerOk(parse, c) && PerformAllOk(parse, c, xs) && AllStampable(parse, c, xs)
    requires k <= j < |xs| && xs[k].RevokeHost? && xs[k].host == host
    requires Touches(xs[j], host) && forall i | j < i < |xs| :: !Touches(xs[i], host)
    ensures var c1 := PerformAll(parse, c, xs[..j + 1]);
            && c1.past != [] && host in Current(c1).hosts
            && (NewestHolds(parse, PerformAll(parse, c, xs), host, map[]) <==>
                xs[j].RevokeHost? || AccessView(Current(c1), host) == map[])
  {
    NewestIsLastTouch(parse, c, xs, j, host);
    PerformAllKeeps(parse, c, xs);
    var c', c1 := PerformAll(parse, c, xs), PerformAll(parse, c, xs[..j + 1]);
    hide PerformAll, PerformAllOk, AllStampable, AccessView;
    if NewestHolds(parse, c', host, map[]) {
      OneStamp(parse, c', host, c'.lastSeq[host], map[], Content(c1, xs[j], host));
    }
  }

  /** Revoking a host takes no key away from its view. */
  lemma RevocationKeepsView(t: Tables, host: Uuid)
    requires host in t.hosts
    ensures AccessView(Deactivated(t, host), host) == AccessView(t, host)
  {
    DeactivatedSameKeys(t, host, host);
    SameKeysSameView(t, Deactivated(t, host), host);
  }

  /** So a push that comes after the revocation of a host with access stamps the full view
      above the empty snapshot. */
  lemma PushRefills(parse: Parser, c: Server, host: Uuid, data: Bytes, p: Push)
    requires ServerOk(parse, c) && host in Current(c).hosts && AccessView(Current(c), host) != map[]
    requires Stampable(parse, c, RevokeHost(host, data)) && p.host == host
    requires PushOk(parse, Perform(parse, c, RevokeHost(host, data)), p)
    ensures var c' := PerformAll(parse, c, [RevokeHost(host, data), Connect(p)]);
            && NewestHolds(parse, c', host, AccessView(Current(c), host))
            && !NewestHolds(parse, c', host, map[])
  {
    var x := RevokeHost(host, data);
    assert c.past != [];
    hide ServerOk, PerformAll, Perform, PushOk, AccessView, NewestHolds, Deactivated;
    PerformTwo(parse, c, x, Connect(p));
    PerformKeeps(parse, c, x);
    RevokedTables(parse, c, host, data);
    RevocationKeepsView(Current(c), host);
    ConnectFills(parse, Perform(parse, c, x), p);
  }

  lemma ConnectFills(parse: Parser, c: Server, p: Push)
    requires ServerOk(parse, c) && PushOk(parse, c, p)
    ensures var c' := Perform(parse, c, Connect(p));
            var v := AccessView(Current(c), p.host);
            NewestHolds(parse, c', p.host, v) && (v != map[] ==> !NewestHolds(parse, c', p.host, map[]))
  {
    assert c.past != [];
    hide ServerOk, Perform, PushOk, AccessView, NewestHolds;
    ConnectHolds(parse, c, p);
    var c', v := Perform(parse, c, Connect(p)), AccessView(Current(c), p.host);
    if NewestHolds(parse, c', p.host, map[]) {
      OneStampOf(parse, c', p.host, map[], v);
    }
  }

  lemma ConnectHolds(parse: Parser, c: Server, p: Push)
    requires ServerOk(parse, c) && PushOk(parse, c, p)
    ensures var c' := Perform(parse, c, Connect(p));
            ServerOk(parse, c') && NewestHolds(parse, c', p.host, AccessView(Current(c), p.host))
  {
    hide ServerOk, Perform, PushStep, LastIsCurrent, AccessView, NewestHolds, PushOk, Kept;
    PerformStaysOk(parse, c, Connect(p));
    ConnectIsPush(parse, c, p);
    PushMakesCurrent(parse, c, p, p.host);
    CurrentHolds(parse, PushStep(parse, c, p), p.host);
  }

  lemma PerformStaysOk(parse: Parser, c: Server, x: Transaction)
    requires ServerOk(parse, c)
    ensures ServerOk(parse, Perform(parse, c, x)) && c.past != []
  {
    assert c.past != [];
    hide ServerOk, Perform;
    PerformKeeps(parse, c, x);
  }

  lemma ConnectIsPush(parse: Parser, c: Server, p: Push)
    requires c.past != [] && PushOk(parse, c, p)
    ensures Perform(parse, c, Connect(p)) == PushStep(parse, c, p)
    ensures PushStep(parse, c, p).past == c.past
  {
    PushEffect(parse, c, p);
    hide PushStep, PushOk;
  }

  lemma PerformTwo(parse: Parser, c: Server, x: Transaction, x': Transaction)
    requires c.past != []
    ensures PerformAll(parse, c, [x, x']) == Perform(parse, Perform(parse, c, x), x')
  {
    hide Perform;
    assert [x, x'][..1] == [x] && [x][..0] == [];
    assert PerformAll(parse, c, [x]) == Perform(parse, c, x);
  }

  lemma OneStampOf(parse: Parser, c: Server, host: Uuid, v: View, v': View)
    requires ServerOk(parse, c) && NewestHolds(parse, c, host, v) && NewestHolds(parse, c, host, v')
    ensures v == v'
  {
    OneStamp(parse, c, host, c.lastSeq[host], v, v');
  }

  /** A revoked host is marked as such; its accounts, the other hosts and who is entitled to
      what stay. */
  lemma RevokedIsInactive(parse: Parser, c: Server, host: Uuid, data: Bytes)
    requires ServerOk(parse, c) && host in Current(c).hosts
    ensures var t, t' := Current(c), Current(Perform(parse, c, RevokeHost(host, data)));
            && t'.hosts.Keys == t.hosts.Keys && t'.hosts[host] == Host(t.hosts[host].accounts, false)
            && (forall h | h in t.hosts && h != host :: t'.hosts[h] == t.hosts[h])
            && forall h, k :: Entitled(t', h, k) <==> Entitled(t, h, k)
  {
    RevokedTables(parse, c, host, data);
    hide ServerOk, Perform;
  }

  lemma RevokedTables(parse: Parser, c: Server, host: Uuid, data: Bytes)
    requires ServerOk(parse, c)
    ensures Current(Perform(parse, c, RevokeHost(host, data))) == Deactivated(Current(c), host)
  {
    var next := Deactivated(Current(c), host);
    assert MayCommit(Current(c), next) by {
      assert Valid(Current(c));
    }
    hide ServerOk, MayCommit, Valid, Deactivated, PushAll, PushStep, Handle;
    assert Current(Serve(parse, c, Commit(next))) == next;
  }
}
