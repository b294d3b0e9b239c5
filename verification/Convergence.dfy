/** When replication converges: any delivery order ends in the same cache, and
    serialized requests keep the last stamp current. */
module Convergence {
  import opened Wire
  import opened Register
  import opened Directory
  import opened Requests
  import opened Replication

  // ---------------------------------------------------------------------------
  // Confluence of deliveries

  ghost function DispatchAll(parse: Parser, stamps: set<Stamp>, d: Daemon, envs: seq<Envelope>): Daemon {
    if envs == [] then d
    else Dispatch(parse, stamps, DispatchAll(parse, stamps, d, envs[..|envs| - 1]), envs[|envs| - 1], true)
  }

  function AsMessage(parse: Parser, env: Envelope): Message<View> {
    Message(env.number, Contents(parse, env.data))
  }

  ghost predicate Audible(stamps: set<Stamp>, host: Uuid, env: Envelope) {
    env.kind == SnapshotKind && Verifies(stamps, host, env)
  }

  /** The messages of the envelopes that verify, in order of arrival. */
  ghost function Heard(parse: Parser, stamps: set<Stamp>, host: Uuid, envs: seq<Envelope>): seq<Message<View>> {
    if envs == [] then []
    else
      var init, last := Heard(parse, stamps, host, envs[..|envs| - 1]), envs[|envs| - 1];
      if Audible(stamps, host, last) then init + [AsMessage(parse, last)] else init
  }

  lemma {:induction false} DispatchAllOffers(parse: Parser, stamps: set<Stamp>, d: Daemon, envs: seq<Envelope>)
    ensures var d' := DispatchAll(parse, stamps, d, envs);
            && d'.mem == OfferAll(d.mem, Heard(parse, stamps, d.host, envs)) && d'.host == d.host
            && (d' == d || d'.memFor == d.host)
  {
    if envs != [] {
      var last := envs[|envs| - 1];
      DispatchAllOffers(parse, stamps, d, envs[..|envs| - 1]);
      if Audible(stamps, d.host, last) {
        var init := Heard(parse, stamps, d.host, envs[..|envs| - 1]);
        assert (init + [AsMessage(parse, last)])[..|init|] == init;
      }
    }
  }

  lemma {:induction false} HeardElements(
    parse: Parser, stamps: set<Stamp>, host: Uuid, envs: seq<Envelope>, msg: Message<View>)
    ensures msg in Heard(parse, stamps, host, envs) <==>
            exists e :: e in envs && Audible(stamps, host, e) && msg == AsMessage(parse, e)
  {
    if envs != [] {
      var init, last := envs[..|envs| - 1], envs[|envs| - 1];
      assert envs == init + [last];
      HeardElements(parse, stamps, host, init, msg);
    }
  }

  /** Every message heard is a stamp of the control plane for this host. */
  lemma HeardIsStamped(parse: Parser, c: Server, host: Uuid, envs: seq<Envelope>, msg: Message<View>) returns (s: Stamp)
    requires ServerOk(parse, c) && msg in Heard(parse, c.stamps, host, envs)
    ensures s in c.stamps && s.kind == SnapshotKind && s.host == host && s.number == msg.number
    ensures Contents(parse, s.data) == msg.content && StampNumberOk(c, s)
  {
    HeardElements(parse, c.stamps, host, envs, msg);
    var e :| e in envs && Audible(c.stamps, host, e) && msg == AsMessage(parse, e);
    VerifiedIsStamped(parse, c, host, e);
    s := Stamp(SnapshotKind, host, e.number, e.data);
  }

  lemma HeardConsistent(parse: Parser, c: Server, host: Uuid, envs: seq<Envelope>)
    requires ServerOk(parse, c)
    ensures Consistent(Elements(Heard(parse, c.stamps, host, envs)))
  {
    var heard := Heard(parse, c.stamps, host, envs);
    forall msg, msg' | msg in heard && msg' in heard
      ensures msg.number > 0 && (msg.number == msg'.number ==> msg == msg')
    {
      var s := HeardIsStamped(parse, c, host, envs, msg);
      var s' := HeardIsStamped(parse, c, host, envs, msg');
    }
  }

  /** Any order, duplication or repetition of the same envelopes, genuine or not,
      leaves the cache at the highest-numbered snapshot among those that verify and
      the starting state. */
  lemma DeliveryConfluence(parse: Parser, c: Server, d: Daemon, envs: seq<Envelope>, envs': seq<Envelope>)
    requires ServerOk(parse, c) && Elements(envs) == Elements(envs')
    ensures DispatchAll(parse, c.stamps, d, envs).mem == DispatchAll(parse, c.stamps, d, envs').mem
    ensures IsHighest(d.mem, Elements(Heard(parse, c.stamps, d.host, envs)), DispatchAll(parse, c.stamps, d, envs).mem)
  {
    var heard, heard' := Heard(parse, c.stamps, d.host, envs), Heard(parse, c.stamps, d.host, envs');
    forall msg
      ensures msg in heard <==> msg in heard'
    {
      HeardElements(parse, c.stamps, d.host, envs, msg);
      HeardElements(parse, c.stamps, d.host, envs', msg);
      assert forall e :: e in envs <==> e in Elements(envs);
      assert forall e :: e in envs' <==> e in Elements(envs');
    }
    assert Elements(heard) == Elements(heard');
    HeardConsistent(parse, c, d.host, envs);
    Confluence(d.mem, heard, heard');
    DispatchAllOffers(parse, c.stamps, d, envs);
    DispatchAllOffers(parse, c.stamps, d, envs');
  }

  // ---------------------------------------------------------------------------
  // The last stamp and the current view

  /** The newest snapshot stamped for the host holds the current access view. */
  ghost predicate LastIsCurrent(parse: Parser, c: Server, host: Uuid) {
    && c.past != []
    && host in Current(c).hosts && host in c.lastSeq
    && Stamped(parse, c.stamps, host, c.lastSeq[host], AccessView(Current(c), host))
  }

  ghost predicate InSync(c: Server, host: Uuid, d: Daemon) {
    && c.past != []
    && host in Current(c).hosts && host in c.lastSeq
    && d.host == host == d.memFor
    && d.mem == Cell(c.lastSeq[host], AccessView(Current(c), host))
  }

  ghost predicate IsEnvelopeOf(env: Envelope, host: Uuid, s: Stamp) {
    && env.kind == SnapshotKind == s.kind && s.host == host && env.number == s.number && env.data == s.data
    && env.signedOver == Some(SigningInput(SnapshotKind, host, s.number, s.data))
  }

  /** The envelope the control plane sends for a stamp. */
  function EnvelopeOf(s: Stamp): (env: Envelope)
    requires s.number < NUMBER_LIMIT
    ensures s.kind == SnapshotKind ==> IsEnvelopeOf(env, s.host, s)
  {
    Envelope(s.kind, s.number, s.data, Some(SigningInput(s.kind, s.host, s.number, s.data)))
  }

  /** The envelope of the newest snapshot is among these. */
  ghost predicate HasNewest(c: Server, host: Uuid, envs: seq<Envelope>) {
    && host in c.lastSeq
    && exists s, env :: s in c.stamps && s.number == c.lastSeq[host] && env in envs && IsEnvelopeOf(env, host, s)
  }

  lemma OneStamp(parse: Parser, c: Server, host: Uuid, number: nat, v: View, v': View)
    requires StampsOk(parse, c)
    requires Stamped(parse, c.stamps, host, number, v) && Stamped(parse, c.stamps, host, number, v')
    ensures v == v'
  {
  }

  lemma StampedStays(parse: Parser, c: Server, c': Server, host: Uuid, number: nat, v: View)
    requires Grows(c, c') && Stamped(parse, c.stamps, host, number, v)
    ensures Stamped(parse, c'.stamps, host, number, v)
  {
  }

  /** Once the newest envelope is among those delivered, in whatever company, the
      cache holds the newest snapshot if it held a lower number, whatever host id that
      came from; otherwise nothing changes. */
  lemma NewestDelivered(parse: Parser, c: Server, d: Daemon, envs: seq<Envelope>)
    requires ServerOk(parse, c) && HasNewest(c, d.host, envs)
    ensures var d' := DispatchAll(parse, c.stamps, d, envs);
            if d.mem.number < c.lastSeq[d.host]
            then
              && d'.mem.number == c.lastSeq[d.host] && d'.host == d'.memFor == d.host
              && Stamped(parse, c.stamps, d.host, d'.mem.number, d'.mem.value)
            else d' == d
  {
    var s, env :| s in c.stamps && s.number == c.lastSeq[d.host] && env in envs && IsEnvelopeOf(env, d.host, s);
    var heard := Heard(parse, c.stamps, d.host, envs);
    DispatchAllOffers(parse, c.stamps, d, envs);
    HeardConsistent(parse, c, d.host, envs);
    OfferAllIsHighest(d.mem, heard);
    var msg := AsMessage(parse, env);
    assert msg in heard by {
      HeardElements(parse, c.stamps, d.host, envs, msg);
    }
    assert StampContentOk(parse, c, s);
    var r := OfferAll(d.mem, heard);
    assert msg in Elements(heard) && msg.number <= r.number;
    if r != d.mem {
      var s' := HeardIsStamped(parse, c, d.host, envs, Message(r.number, Some(r.value)));
    } else {
      DispatchAllKeeps(parse, c, d, envs);
    }
  }

  /** Deliveries that leave the memory as it was change nothing at all. */
  lemma {:induction false} DispatchAllKeeps(parse: Parser, c: Server, d: Daemon, envs: seq<Envelope>)
    requires ServerOk(parse, c)
    ensures var d' := DispatchAll(parse, c.stamps, d, envs);
            d.mem.number <= d'.mem.number && (d'.mem.number == d.mem.number ==> d' == d)
  {
    if envs != [] {
      var init := envs[..|envs| - 1];
      DispatchAllKeeps(parse, c, d, init);
      AcceptedIsHigher(parse, c, DispatchAll(parse, c.stamps, d, init), envs[|envs| - 1], true);
      hide ServerOk, Verifies;
    }
  }

  /** When the last stamp is current, delivering it brings a daemon in sync exactly if
      the number it holds, from whatever host id, is lower, or it is in sync already. */
  lemma DeliverySyncsIff(parse: Parser, c: Server, d: Daemon, envs: seq<Envelope>)
    requires ServerOk(parse, c) && LastIsCurrent(parse, c, d.host) && HasNewest(c, d.host, envs)
    ensures InSync(c, d.host, DispatchAll(parse, c.stamps, d, envs)) <==>
            d.mem.number < c.lastSeq[d.host] || InSync(c, d.host, d)
  {
    NewestDelivered(parse, c, d, envs);
    var r := DispatchAll(parse, c.stamps, d, envs).mem;
    if d.mem.number < c.lastSeq[d.host] {
      OneStamp(parse, c, d.host, r.number, r.value, AccessView(Current(c), d.host));
    }
  }

  // ---------------------------------------------------------------------------
  // Serialized requests

  /** One pushSnapshot call: the rows read, and the document they are marshalled to. */
  datatype Push = Push(host: Uuid, entries: seq<AccessEntry>, data: Bytes)

  /** The queries and the counter update of the push succeed. */
  ghost predicate PushOk(parse: Parser, c: Server, p: Push) {
    && c.past != []
    && IsBuild(Current(c), p.host, p.entries) && parse(p.data) == Some(p.entries)
    && p.host in c.lastSeq && c.lastSeq[p.host] < BIGINT_MAX
  }

  /** Read then stamp, with nothing in between. */
  ghost function PushStep(parse: Parser, c: Server, p: Push): (c': Server)
    requires c.past != []
    ensures c'.past == c.past
  {
    Serve(parse, Serve(parse, c, Read(p.host, p.entries)), StampSnapshot(Build(p.host, p.entries), p.data))
  }

  ghost function PushAll(parse: Parser, c: Server, ps: seq<Push>): (c': Server)
    requires c.past != []
    ensures c'.past == c.past
  {
    if ps == [] then c else PushStep(parse, PushAll(parse, c, ps[..|ps| - 1]), ps[|ps| - 1])
  }

  ghost predicate PushesOk(parse: Parser, c: Server, ps: seq<Push>)
    requires c.past != []
  {
    ps != [] ==>
      PushesOk(parse, c, ps[..|ps| - 1]) && PushOk(parse, PushAll(parse, c, ps[..|ps| - 1]), ps[|ps| - 1])
  }

  function PushedHosts(ps: seq<Push>): set<Uuid> {
    set p | p in ps :: p.host
  }

  datatype Transaction =
    | Request(request: Request, pushes: seq<Push>)
    | Connect(push: Push)                       // also a refresh
    | RevokeHost(host: Uuid, data: Bytes)
    | Extend(next: Tables)                      // enrols a host, creates a user or a group

  function Deactivated(t: Tables, host: Uuid): Tables {
    if host in t.hosts then t.(hosts := t.hosts[host := t.hosts[host].(active := false)]) else t
  }

  ghost function Perform(parse: Parser, c: Server, x: Transaction): (c': Server)
    requires c.past != []
    ensures c'.past != []
  {
    match x
    case Request(r, ps) => PushAll(parse, Serve(parse, c, Commit(Handle(Current(c), r).tables)), ps)
    case Connect(p) => PushStep(parse, c, p)
    case RevokeHost(h, data) => Serve(parse, Serve(parse, c, Commit(Deactivated(Current(c), h))), StampEmpty(h, data))
    case Extend(next) => Serve(parse, c, Commit(next))
  }

  /** A commit that touches no existing host's keys. */
  ghost predicate Extends(t: Tables, next: Tables) {
    MayCommit(t, next) && forall h | h in t.hosts :: HostAccessKeys(next, h) == HostAccessKeys(t, h)
  }

  /** The pushes of a request are, in any order, the ones its handler makes. */
  ghost predicate PerformOk(parse: Parser, c: Server, x: Transaction)
    requires c.past != []
  {
    match x
    case Request(r, ps) =>
      && PushesOk(parse, Serve(parse, c, Commit(Handle(Current(c), r).tables)), ps)
      && PushedHosts(ps) == Handle(Current(c), r).pushed * Current(c).hosts.Keys
    case Connect(p) => PushOk(parse, c, p)
    case RevokeHost(_, _) => true
    case Extend(next) => Extends(Current(c), next)
  }

  ghost function PerformAll(parse: Parser, c: Server, xs: seq<Transaction>): (c': Server)
    requires c.past != []
    ensures c'.past != []
  {
    if xs == [] then c else Perform(parse, PerformAll(parse, c, xs[..|xs| - 1]), xs[|xs| - 1])
  }

  ghost predicate PerformAllOk(parse: Parser, c: Server, xs: seq<Transaction>)
    requires c.past != []
  {
    xs != [] ==>
      && PerformAllOk(parse, c, xs[..|xs| - 1])
      && PerformOk(parse, PerformAll(parse, c, xs[..|xs| - 1]), xs[|xs| - 1])
  }

  /** A later state that keeps the invariant. */
  ghost predicate Kept(parse: Parser, c: Server, c': Server) {
    ServerOk(parse, c') && Grows(c, c')
  }

  lemma TwoStepsKeep(parse: Parser, c: Server, e: ServerEvent, e': ServerEvent)
    requires ServerOk(parse, c)
    ensures Kept(parse, c, Serve(parse, Serve(parse, c, e), e'))
  {
    var c1 := Serve(parse, c, e);
    ServeOk(parse, c, e);
    ServeOk(parse, c1, e');
    GrowsOn(c, c1, Serve(parse, c1, e'));
  }

  lemma {:induction false} PushAllKeeps(parse: Parser, c: Server, ps: seq<Push>)
    requires ServerOk(parse, c)
    ensures Kept(parse, c, PushAll(parse, c, ps))
  {
    if ps != [] {
      var c1, p := PushAll(parse, c, ps[..|ps| - 1]), ps[|ps| - 1];
      PushAllKeeps(parse, c, ps[..|ps| - 1]);
      TwoStepsKeep(parse, c1, Read(p.host, p.entries), StampSnapshot(Build(p.host, p.entries), p.data));
      GrowsOn(c, c1, PushStep(parse, c1, p));
    }
  }

  lemma PushEffect(parse: Parser, c: Server, p: Push)
    requires PushOk(parse, c, p)
    ensures var n := c.lastSeq[p.host] + 1;
            PushStep(parse, c, p) == c.(lastSeq := c.lastSeq[p.host := n],
                                        stamps := c.stamps + {Stamp(SnapshotKind, p.host, n, p.data)})
  {
    var held := multiset{Build(p.host, p.entries)};
    assert c.builds + held - held == c.builds;
  }

  /** A push makes the pushed host current and leaves every other host as it was. */
  lemma PushMakesCurrent(parse: Parser, c: Server, p: Push, host: Uuid)
    requires ServerOk(parse, c) && PushOk(parse, c, p)
    requires p.host == host || LastIsCurrent(parse, c, host)
    ensures LastIsCurrent(parse, PushStep(parse, c, p), host)
  {
    PushEffect(parse, c, p);
    if p.host == host {
      BuildYieldsView(Current(c), host, p.entries);
      assert Stamp(SnapshotKind, host, c.lastSeq[host] + 1, p.data) in PushStep(parse, c, p).stamps;
    }
  }

  lemma OneMorePushed(ps: seq<Push>)
    requires ps != []
    ensures PushedHosts(ps) == PushedHosts(ps[..|ps| - 1]) + {ps[|ps| - 1].host}
  {
    assert ps == ps[..|ps| - 1] + [ps[|ps| - 1]];
  }

  lemma {:induction false} PushAllMakesCurrent(parse: Parser, c: Server, ps: seq<Push>, host: Uuid)
    requires ServerOk(parse, c) && PushesOk(parse, c, ps)
    requires host in PushedHosts(ps) || LastIsCurrent(parse, c, host)
    ensures LastIsCurrent(parse, PushAll(parse, c, ps), host)
  {
    assert c.past != [];
    if ps == [] {
      assert host !in PushedHosts(ps);
    }
    hide ServerOk, LastIsCurrent, PushOk, PushStep, Grows, PushedHosts;
    if ps != [] {
      var init, last := ps[..|ps| - 1], ps[|ps| - 1];
      OneMorePushed(ps);
      PushAllKeeps(parse, c, init);
      if last.host != host {
        PushAllMakesCurrent(parse, c, init, host);
      }
      PushMakesCurrent(parse, PushAll(parse, c, init), last, host);
    }
  }

  lemma SameKeysSameView(t: Tables, t': Tables, host: Uuid)
    requires host in t.hosts && host in t'.hosts && t.hosts[host].accounts == t'.hosts[host].accounts
    requires HostAccessKeys(t, host) == HostAccessKeys(t', host)
    ensures AccessView(t, host) == AccessView(t', host)
  {
  }

  lemma CommitKeepsCurrent(parse: Parser, c: Server, next: Tables, host: Uuid)
    requires ServerOk(parse, c) && MayCommit(Current(c), next) && LastIsCurrent(parse, c, host)
    requires HostAccessKeys(next, host) == HostAccessKeys(Current(c), host)
    ensures LastIsCurrent(parse, Serve(parse, c, Commit(next)), host)
  {
    assert Current(Serve(parse, c, Commit(next))) == next;
    SameKeysSameView(Current(c), next, host);
  }

  /** A request leaves every current host current: it pushes the hosts it changes
      after the commit, and the view of the others did not move. */
  lemma RequestKeepsCurrent(parse: Parser, c: Server, r: Requests.Request, ps: seq<Push>, host: Uuid)
    requires ServerOk(parse, c) && PerformOk(parse, c, Request(r, ps)) && LastIsCurrent(parse, c, host)
    ensures LastIsCurrent(parse, Perform(parse, c, Request(r, ps)), host)
  {
    var t := Current(c);
    var e := Commit(Handle(t, r).tables);
    HandleKeepsValid(t, r);
    ServeOk(parse, c, e);
    if host !in Handle(t, r).pushed {
      ChangedHostsArePushed(t, r, host);
      CommitKeepsCurrent(parse, c, e.next, host);
    }
    PushAllMakesCurrent(parse, Serve(parse, c, e), ps, host);
  }

  lemma RevokeKeepsOthersCurrent(parse: Parser, c: Server, gone: Uuid, data: Bytes, host: Uuid)
    requires ServerOk(parse, c) && LastIsCurrent(parse, c, host) && gone != host
    ensures LastIsCurrent(parse, Perform(parse, c, RevokeHost(gone, data)), host)
  {
    var t := Current(c);
    var next := Deactivated(t, gone);
    DeactivatedSameKeys(t, gone, host);
    CommitKeepsCurrent(parse, c, next, host);
    hide HostAccessKeys, LastIsCurrent, ServerOk, Serve, Deactivated;
    EmptyKeepsOthersCurrent(parse, Serve(parse, c, Commit(next)), gone, data, host);
  }

  lemma EmptyKeepsOthersCurrent(parse: Parser, c: Server, gone: Uuid, data: Bytes, host: Uuid)
    requires LastIsCurrent(parse, c, host) && gone != host
    ensures LastIsCurrent(parse, Serve(parse, c, StampEmpty(gone, data)), host)
  {
    hide AccessView;
  }

  lemma DeactivatedSameKeys(t: Tables, gone: Uuid, host: Uuid)
    ensures HostAccessKeys(Deactivated(t, gone), host) == HostAccessKeys(t, host)
  {}

  lemma PerformKeeps(parse: Parser, c: Server, x: Transaction)
    requires ServerOk(parse, c)
    ensures Kept(parse, c, Perform(parse, c, x))
  {
    match x {
      case Request(r, ps) =>
        var e := Commit(Handle(Current(c), r).tables);
        ServeOk(parse, c, e);
        PushAllKeeps(parse, Serve(parse, c, e), ps);
        GrowsOn(c, Serve(parse, c, e), Perform(parse, c, x));
      case Connect(p) =>
        TwoStepsKeep(parse, c, Read(p.host, p.entries), StampSnapshot(Build(p.host, p.entries), p.data));
      case RevokeHost(h, data) =>
        TwoStepsKeep(parse, c, Commit(Deactivated(Current(c), h)), StampEmpty(h, data));
      case Extend(next) => ServeOk(parse, c, Commit(next));
    }
  }

  lemma PerformKeepsCurrent(parse: Parser, c: Server, x: Transaction, host: Uuid)
    requires ServerOk(parse, c) && PerformOk(parse, c, x) && LastIsCurrent(parse, c, host)
    requires x.RevokeHost? ==> x.host != host
    ensures LastIsCurrent(parse, Perform(parse, c, x), host)
  {
    match x {
      case Request(r, ps) => RequestKeepsCurrent(parse, c, r, ps, host);
      case Connect(p) => PushMakesCurrent(parse, c, p, host);
      case RevokeHost(h, data) => RevokeKeepsOthersCurrent(parse, c, h, data, host);
      case Extend(next) => CommitKeepsCurrent(parse, c, next, host);
    }
  }

  /** Over every serialized run, a host that is current stays current until it is revoked. */
  lemma {:induction false} SerializedRunsStayCurrent(parse: Parser, c: Server, xs: seq<Transaction>, host: Uuid)
    requires ServerOk(parse, c) && PerformAllOk(parse, c, xs)
    requires LastIsCurrent(parse, c, host)
    requires forall x | x in xs && x.RevokeHost? :: x.host != host
    ensures Kept(parse, c, PerformAll(parse, c, xs))
    ensures LastIsCurrent(parse, PerformAll(parse, c, xs), host)
  {
    if xs != [] {
      var init, last := xs[..|xs| - 1], xs[|xs| - 1];
      SerializedRunsStayCurrent(parse, c, init, host);
      var c1 := PerformAll(parse, c, init);
      assert last in xs;
      PerformKeepsCurrent(parse, c1, last, host);
      PerformKeeps(parse, c1, last);
      GrowsOn(c, c1, Perform(parse, c1, last));
    }
  }

  /** End of the serialized story: a daemon in sync before any serialized run is in
      sync after it once the newest snapshot has been delivered, among any other
      envelopes, in any order. */
  lemma SerializedRunsConverge(parse: Parser, c: Server, d: Daemon, xs: seq<Transaction>, envs: seq<Envelope>)
    requires ServerOk(parse, c) && PerformAllOk(parse, c, xs)
    requires InSync(c, d.host, d) && LastIsCurrent(parse, c, d.host)
    requires forall x | x in xs && x.RevokeHost? :: x.host != d.host
    requires HasNewest(PerformAll(parse, c, xs), d.host, envs)
    ensures var c' := PerformAll(parse, c, xs); InSync(c', d.host, DispatchAll(parse, c'.stamps, d, envs))
  {
    SerializedRunsStayCurrent(parse, c, xs, d.host);
    var c' := PerformAll(parse, c, xs);
    StampedStays(parse, c, c', d.host, c.lastSeq[d.host], AccessView(Current(c), d.host));
    DeliverySyncsIff(parse, c', d, envs);
    if d.mem.number == c'.lastSeq[d.host] {
      OneStamp(parse, c', d.host, d.mem.number, d.mem.value, AccessView(Current(c'), d.host));
    }
  }

  lemma {:induction false} PerformAllKeeps(parse: Parser, c: Server, xs: seq<Transaction>)
    requires ServerOk(parse, c)
    ensures Kept(parse, c, PerformAll(parse, c, xs))
  {
    if xs != [] {
      hide ServerOk, Perform, Grows;
      var c1 := PerformAll(parse, c, xs[..|xs| - 1]);
      PerformAllKeeps(parse, c, xs[..|xs| - 1]);
      PerformKeeps(parse, c1, xs[|xs| - 1]);
      GrowsOn(c, c1, PerformAll(parse, c, xs));
    } else {
      assert PerformAll(parse, c, xs) == c;
    }
  }

  /** A host connected in a serialized run, and not revoked later in it, ends it current. */
  lemma {:induction false} ConnectedStaysCurrent(parse: Parser, c: Server, xs: seq<Transaction>, k: nat, host: Uuid)
    requires ServerOk(parse, c) && PerformAllOk(parse, c, xs)
    requires k < |xs| && xs[k].Connect? && xs[k].push.host == host
    requires forall i | k < i < |xs| && xs[i].RevokeHost? :: xs[i].host != host
    ensures LastIsCurrent(parse, PerformAll(parse, c, xs), host)
  {
    assert c.past != [];
    hide ServerOk, LastIsCurrent, PushOk, PushStep, Serve, Grows, Handle, PushesOk, PushedHosts;
    var init, last := xs[..|xs| - 1], xs[|xs| - 1];
    var c1 := PerformAll(parse, c, init);
    PerformAllKeeps(parse, c, init);
    if k == |init| {
      PushMakesCurrent(parse, c1, last.push, host);
    } else {
      ConnectedStaysCurrent(parse, c, init, k, host);
      PerformKeepsCurrent(parse, c1, last, host);
    }
  }

  /** The serialized story from any start, for any daemon configured for the host: once
      the host has connected in the run and the newest snapshot has been delivered, among
      any other envelopes in any order, the cache is the current access view exactly if
      the number held before was lower, or it was that view already. */
  lemma ConnectedRunsConvergeIff(
    parse: Parser, c: Server, xs: seq<Transaction>, k: nat, d: Daemon, envs: seq<Envelope>)
    requires ServerOk(parse, c) && PerformAllOk(parse, c, xs)
    requires k < |xs| && xs[k].Connect? && xs[k].push.host == d.host
    requires forall i | k < i < |xs| && xs[i].RevokeHost? :: xs[i].host != d.host
    requires HasNewest(PerformAll(parse, c, xs), d.host, envs)
    ensures var c' := PerformAll(parse, c, xs);
            InSync(c', d.host, DispatchAll(parse, c'.stamps, d, envs)) <==>
            d.mem.number < c'.lastSeq[d.host] || InSync(c', d.host, d)
  {
    assert c.past != [];
    PerformAllKeeps(parse, c, xs);
    ConnectedStaysCurrent(parse, c, xs, k, d.host);
    hide ServerOk, LastIsCurrent, InSync, Perform, PerformAll, PerformAllOk;
    DeliverySyncsIff(parse, PerformAll(parse, c, xs), d, envs);
  }

  /** A daemon whose cache came from its own host id always converges, unless it purged
      the newest number itself. */
  lemma OwnCacheConverges(parse: Parser, c: Server, d: Daemon, envs: seq<Envelope>)
    requires ServerOk(parse, c) && LastIsCurrent(parse, c, d.host) && HasNewest(c, d.host, envs)
    requires DaemonOk(parse, c, d) && d.memFor == d.host
    ensures InSync(c, d.host, DispatchAll(parse, c.stamps, d, envs)) <==>
            !(d.mem.number == c.lastSeq[d.host] && d.mem.value != AccessView(Current(c), d.host))
    ensures d.mem.number == c.lastSeq[d.host] && d.mem.value != AccessView(Current(c), d.host) ==> d.mem.value == map[]
  {
    DeliverySyncsIff(parse, c, d, envs);
    if d.mem.number == c.lastSeq[d.host] && d.mem.value != map[] {
      OneStamp(parse, c, d.host, d.mem.number, d.mem.value, AccessView(Current(c), d.host));
    }
  }
}
