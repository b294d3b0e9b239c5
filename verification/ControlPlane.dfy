/** The control-plane handlers as they run, one request at a time: each commits its
    transaction and then loops over the hosts it must re-push
    (internal/controlplane: daemon_ws.go, grants.go, groups.go, users.go, keys.go, hosts.go). */
module ControlPlane {
  import opened Wire
  import opened Directory
  import opened SshKey
  import opened Requests
  import opened Replication
  import opened Convergence
  import H = Hub

  /** The server after snapshotEnvelope: the next number taken and used, unless the counter
      is exhausted. */
  ghost function StampedOnce(c: Server, host: Uuid, data: Bytes): Server {
    if host !in c.lastSeq || c.lastSeq[host] >= BIGINT_MAX then c
    else
      var n := c.lastSeq[host] + 1;
      c.(lastSeq := c.lastSeq[host := n], stamps := c.stamps + {Stamp(SnapshotKind, host, n, data)})
  }

  /** The envelope it returns. */
  function NextEnvelope(lastSeq: map<Uuid, nat>, host: Uuid, data: Bytes): Option<Envelope> {
    if host !in lastSeq || lastSeq[host] >= BIGINT_MAX then None
    else Some(EnvelopeOf(Stamp(SnapshotKind, host, lastSeq[host] + 1, data)))
  }

  /** The hub after one push: nothing is sent when the host's counter is exhausted. */
  ghost function Sent(s: H.State, c: Server, p: Push): H.State {
    match NextEnvelope(c.lastSeq, p.host, p.data)
    case None => s
    case Some(env) => H.Apply(s, H.Push(p.host, env))
  }

  ghost function SentAll(parse: Parser, s: H.State, c: Server, ps: seq<Push>): H.State
    requires c.past != []
  {
    if ps == [] then s
    else Sent(SentAll(parse, s, c, ps[..|ps| - 1]), PushAll(parse, c, ps[..|ps| - 1]), ps[|ps| - 1])
  }

  lemma PushShape(parse: Parser, c: Server, p: Push)
    requires c.past != [] && IsBuild(Current(c), p.host, p.entries) && parse(p.data) == Some(p.entries)
    requires p.host in c.lastSeq
    ensures PushStep(parse, c, p) == StampedOnce(c, p.host, p.data)
  {
    hide IsBuild, MayCommit, Extended;
    var held := multiset{Build(p.host, p.entries)};
    assert c.builds + held - held == c.builds;
  }

  ghost predicate Built(parse: Parser, t: Tables, ps: seq<Push>) {
    forall p | p in ps :: IsBuild(t, p.host, p.entries) && parse(p.data) == Some(p.entries)
  }

  /** The document a snapshot is marshalled to parses back to it. */
  ghost predicate RoundTrips(marshal: seq<AccessEntry> -> Bytes, parse: Parser) {
    forall entries :: parse(marshal(entries)) == Some(entries)
  }

  /** What serving request `r` amounts to: commit, then read, stamp and push, host by
      host, every existing host the request must re-push. */
  ghost predicate Served(parse: Parser, c: Server, s: H.State, r: Request, ps: seq<Push>, c': Server, s': H.State)
    requires c.past != []
  {
    var c1 := Serve(parse, c, Commit(Handle(Current(c), r).tables));
    && c' == PushAll(parse, c1, ps)
    && s' == SentAll(parse, s, c1, ps)
    && Built(parse, Current(c1), ps)
    && PushedHosts(ps) == Handle(Current(c), r).pushed * Current(c1).hosts.Keys
  }

  /** The commit of request `r` has taken `c` to `c'`, and nothing has been pushed yet. */
  ghost predicate Begun(parse: Parser, c: Server, s: H.State, r: Request, c': Server, s': H.State) {
    c.past != [] && c' == Serve(parse, c, Commit(Handle(Current(c), r).tables)) && s' == s
  }

  lemma ServedPerforms(parse: Parser, c: Server, s: H.State, r: Request, ps: seq<Push>, c': Server, s': H.State)
    requires ServerOk(parse, c) && Served(parse, c, s, r, ps, c', s')
    requires forall h | h in c.lastSeq :: c.lastSeq[h] + |ps| <= BIGINT_MAX
    ensures PerformOk(parse, c, Convergence.Request(r, ps)) && c' == Perform(parse, c, Convergence.Request(r, ps))
  {
    hide Handle, PushAll, PushesOk, SentAll, PushedHosts, Built;
    HandleKeepsValid(Current(c), r);
    var next := Handle(Current(c), r).tables;
    CommitKeepsCounters(parse, c, next);
    ServeOk(parse, c, Commit(next));
    RoomForPushes(parse, Serve(parse, c, Commit(next)), ps);
    hide Serve, ServerOk;
  }

  lemma CommitKeepsCounters(parse: Parser, c: Server, next: Tables)
    requires ServerOk(parse, c) && next.hosts == Current(c).hosts && Valid(next)
    ensures Serve(parse, c, Commit(next)).lastSeq == c.lastSeq && Current(Serve(parse, c, Commit(next))) == next
  {
    assert Extended(c.lastSeq, next.hosts.Keys) == c.lastSeq;
  }

  /** Pushes of built snapshots succeed while the counters have room. */
  lemma {:induction false} RoomForPushes(parse: Parser, c: Server, ps: seq<Push>)
    requires ServerOk(parse, c) && Built(parse, Current(c), ps)
    requires forall h | h in c.lastSeq :: c.lastSeq[h] + |ps| <= BIGINT_MAX
    ensures PushesOk(parse, c, ps) && Within(c.lastSeq, PushAll(parse, c, ps).lastSeq, |ps|)
  {
    if ps != [] {
      hide ServerOk, IsBuild, PushStep, Within;
      var init, p := ps[..|ps| - 1], ps[|ps| - 1];
      assert p in ps && forall q | q in init :: q in ps;
      RoomForPushes(parse, c, init);
      OnePush(parse, c, PushAll(parse, c, init), p, |init|);
    } else {
      assert PushAll(parse, c, ps) == c;
    }
  }

  ghost predicate Within(counter: map<Uuid, nat>, counter': map<Uuid, nat>, k: nat) {
    forall h | h in counter :: h in counter' && counter'[h] <= counter[h] + k
  }

  lemma OnePush(parse: Parser, c: Server, c1: Server, p: Push, k: nat)
    requires ServerOk(parse, c) && c1.past == c.past && Within(c.lastSeq, c1.lastSeq, k)
    requires IsBuild(Current(c), p.host, p.entries) && parse(p.data) == Some(p.entries)
    requires forall h | h in c.lastSeq :: c.lastSeq[h] + k < BIGINT_MAX
    ensures PushOk(parse, c1, p) && Within(c.lastSeq, PushStep(parse, c1, p).lastSeq, k + 1)
  {
    PushEffect(parse, c1, p);
    hide PushStep;
  }

  lemma OneFewer(hosts: set<Uuid>, left: set<Uuid>, h: Uuid, known: set<Uuid>)
    requires h in left && left <= hosts
    ensures (hosts - (left - {h})) * known == (hosts - left) * known + if h in known then {h} else {}
  {}

  class ApiServer {
    var tables: Tables
    var lastSeq: map<Uuid, nat>
    const hub: H.Hub
    const marshal: seq<AccessEntry> -> Bytes
    ghost const parse: Parser
    ghost var past: seq<Tables>
    ghost var lastSetSeq: map<Uuid, nat>
    ghost var builds: multiset<Build>
    ghost var stamps: set<Stamp>

    ghost function Model(): Server
      reads this
    {
      Server(past, lastSeq, lastSetSeq, builds, stamps)
    }

    ghost predicate Consistent()
      reads this
    {
      && past != [] && past[|past| - 1] == tables
      && lastSeq.Keys == tables.hosts.Keys == lastSetSeq.Keys
    }

    constructor (tables: Tables, hub: H.Hub, marshal: seq<AccessEntry> -> Bytes, ghost parse: Parser)
      ensures this.marshal == marshal && this.parse == parse
      ensures Consistent() && Model() == Init(tables).server && this.hub == hub
    {
      this.tables, this.hub, this.marshal, this.parse := tables, hub, marshal, parse;
      this.lastSeq := Extended(map[], tables.hosts.Keys);
      this.lastSetSeq := Extended(map[], tables.hosts.Keys);
      this.past, this.builds, this.stamps := [tables], multiset{}, {};
    }

    /** One entry per row, in whatever order the rows come. */
    method BuildSnapshot(host: Uuid) returns (entries: seq<AccessEntry>)
      requires host in tables.hosts
      ensures IsBuild(tables, host, entries)
    {
      entries := [];
      var accounts := tables.hosts[host].accounts;
      var rows := HostAccessKeys(tables, host);
      ghost var done: set<PublicKey> := {};
      while rows != {}
        invariant done + rows == HostAccessKeys(tables, host)
        invariant Elements(entries) == set k | k in done :: EntryOf(k, accounts)
        decreases |rows|
      {
        var k :| k in rows;
        ghost var before := entries;
        entries := entries + [EntryOf(k, accounts)];
        assert Elements(entries) == Elements(before) + {EntryOf(k, accounts)};
        rows, done := rows - {k}, done + {k};
      }
    }

    /** Takes the next number of the host and signs; None when the counter is exhausted. */
    method SnapshotEnvelope(host: Uuid, data: Bytes) returns (env: Option<Envelope>)
      requires Consistent() && host in tables.hosts
      modifies this`lastSeq, this`stamps
      ensures Consistent() && Model() == StampedOnce(old(Model()), host, data)
      ensures env == NextEnvelope(old(lastSeq), host, data)
    {
      env := NextEnvelope(lastSeq, host, data);
      if lastSeq[host] < BIGINT_MAX {
        var s := Stamp(SnapshotKind, host, lastSeq[host] + 1, data);
        lastSeq := lastSeq[host := s.number];
        stamps := stamps + {s};
      }
    }

    /** Reads the rows of a known host, marshals them and stamps the document. */
    method StampCurrent(host: Uuid) returns (p: Push, env: Option<Envelope>)
      requires Consistent() && host in tables.hosts && RoundTrips(marshal, parse)
      modifies this`lastSeq, this`stamps
      ensures Consistent() && Model() == PushStep(parse, old(Model()), p)
      ensures p.host == host && IsBuild(tables, host, p.entries) && parse(p.data) == Some(p.entries)
      ensures env == NextEnvelope(old(lastSeq), host, p.data)
    {
      hide NextEnvelope, StampedOnce, PushStep, IsBuild;
      var entries := BuildSnapshot(host);
      p := Push(host, entries, marshal(entries));
      PushShape(parse, Model(), p);
      env := SnapshotEnvelope(host, p.data);
    }

    /** Builds, stamps and pushes the snapshot of a known host. */
    method PushSnapshot(host: Uuid) returns (p: Push)
      requires Consistent() && host in tables.hosts && RoundTrips(marshal, parse)
      modifies this`lastSeq, this`stamps, hub
      ensures Consistent() && Model() == PushStep(parse, old(Model()), p)
      ensures hub.Now() == Sent(old(hub.Now()), old(Model()), p)
      ensures p.host == host && IsBuild(tables, host, p.entries) && parse(p.data) == Some(p.entries)
    {
      hide NextEnvelope, PushStep, IsBuild, RoundTrips, H.Apply;
      var env;
      p, env := StampCurrent(host);
      if env.Some? {
        hub.Push(host, env.value);
      }
    }

    /** Pushes every listed host that exists, once each, in some order. */
    method PushToHosts(hosts: set<Uuid>) returns (ps: seq<Push>)
      requires Consistent() && RoundTrips(marshal, parse)
      modifies this`lastSeq, this`stamps, hub
      ensures Consistent() && Model() == PushAll(parse, old(Model()), ps)
      ensures hub.Now() == SentAll(parse, old(hub.Now()), old(Model()), ps)
      ensures Built(parse, tables, ps)
      ensures PushedHosts(ps) == hosts * tables.hosts.Keys
    {
      hide PushStep, PushAll, Sent, SentAll, IsBuild, Built, PushedHosts, RoundTrips;
      ps := [];
      var left := hosts;
      PushedNone(parse, hub.Now(), Model(), tables);
      while left != {}
        invariant Consistent() && left <= hosts
        invariant Model() == PushAll(parse, old(Model()), ps)
        invariant hub.Now() == SentAll(parse, old(hub.Now()), old(Model()), ps)
        invariant Built(parse, tables, ps)
        invariant PushedHosts(ps) == (hosts - left) * tables.hosts.Keys
        decreases |left|
      {
        var h :| h in left;
        OneFewer(hosts, left, h, tables.hosts.Keys);
        left := left - {h};
        if h in tables.hosts {
          var p := PushSnapshot(h);
          PushedMore(parse, old(hub.Now()), old(Model()), tables, ps, p);
          ps := ps + [p];
        }
      }
    }

    method CommitTables(next: Tables)
      requires Consistent() && MayCommit(tables, next) && next.hosts.Keys == tables.hosts.Keys
      modifies this`tables, this`past
      ensures Consistent() && tables == next && Model() == Serve(parse, old(Model()), Commit(next))
    {
      assert Extended(lastSeq, next.hosts.Keys) == lastSeq;
      assert Extended(lastSetSeq, next.hosts.Keys) == lastSetSeq;
      tables := next;
      past := past + [next];
    }

    /** The transaction of request `r`. */
    method Begin(ghost r: Request, next: Tables)
      requires Consistent() && Valid(tables) && Handle(tables, r).tables == next
      modifies this`tables, this`past
      ensures Consistent() && tables == next
      ensures Begun(parse, old(Model()), old(hub.Now()), r, Model(), hub.Now())
    {
      hide Handle, Serve, Valid;
      HandleKeepsValid(tables, r);
      CommitTables(next);
    }

    /** The pushes that follow the transaction of request `r`. */
    method Finish(ghost c: Server, ghost s: H.State, ghost r: Request, hosts: set<Uuid>) returns (ps: seq<Push>)
      requires Consistent() && RoundTrips(marshal, parse) && c.past != []
      requires Begun(parse, c, s, r, Model(), hub.Now()) && hosts == Handle(Current(c), r).pushed
      modifies this`lastSeq, this`stamps, hub
      ensures Consistent() && Served(parse, c, s, r, ps, Model(), hub.Now())
    {
      hide Handle, PushAll, SentAll, Built, PushedHosts, Serve, RoundTrips;
      ps := PushToHosts(hosts);
    }

    /** A refused request commits the tables as they are. */
    method Refuse(ghost r: Request) returns (ps: seq<Push>)
      requires Consistent() && Valid(tables) && RoundTrips(marshal, parse) && Handle(tables, r) == Refused(tables)
      modifies this, hub
      ensures Consistent() && Served(parse, old(Model()), old(hub.Now()), r, ps, Model(), hub.Now())
    {
      hide Handle, Begun, Served, Valid, RoundTrips;
      Begin(r, tables);
      ps := Finish(old(Model()), old(hub.Now()), r, {});
    }

    method CreateGrant(id: Uuid, user: Uuid, permission: Permission, target: Target) returns (ps: seq<Push>)
      requires Consistent() && Valid(tables) && RoundTrips(marshal, parse)
      modifies this, hub
      ensures Consistent()
      ensures var r := Request.CreateGrant(id, user, permission, target);
              Served(parse, old(Model()), old(hub.Now()), r, ps, Model(), hub.Now())
    {
      hide Served, Begun, Valid, RoundTrips;
      ghost var r := Request.CreateGrant(id, user, permission, target);
      if !ValidGrant(target, permission) || user !in tables.users || id in tables.grants {
        ps := Refuse(r);
        return;
      }
      var next := tables.(grants := tables.grants[id := Grant(user, permission, target, false)]);
      Begin(r, next);
      ps := Finish(old(Model()), old(hub.Now()), r, GrantHosts(tables, permission, target));
    }

    method RevokeGrant(id: Uuid) returns (ps: seq<Push>)
      requires Consistent() && Valid(tables) && RoundTrips(marshal, parse)
      modifies this, hub
      ensures Consistent()
      ensures Served(parse, old(Model()), old(hub.Now()), Request.RevokeGrant(id), ps, Model(), hub.Now())
    {
      hide Served, Begun, Valid, RoundTrips;
      ghost var r := Request.RevokeGrant(id);
      if id !in tables.grants || tables.grants[id].revoked {
        ps := Refuse(r);
        return;
      }
      var grant := tables.grants[id];
      Begin(r, tables.(grants := tables.grants[id := grant.(revoked := true)]));
      ps := Finish(old(Model()), old(hub.Now()), r, GrantHosts(tables, grant.permission, grant.target));
    }

    method AddGroupResource(group: Uuid, resource: Resource) returns (ps: seq<Push>)
      requires Consistent() && Valid(tables) && RoundTrips(marshal, parse)
      modifies this, hub
      ensures Consistent()
      ensures Served(parse, old(Model()), old(hub.Now()), AddResource(group, resource), ps, Model(), hub.Now())
    {
      hide Served, Begun, Valid, RoundTrips;
      ghost var r := AddResource(group, resource);
      if group !in tables.groups {
        ps := Refuse(r);
        return;
      }
      Begin(r, tables.(members := tables.members + {(group, resource)}));
      ps := Finish(old(Model()), old(hub.Now()), r, ResourceHosts(resource));
    }

    method RemoveGroupResource(group: Uuid, resource: Resource) returns (ps: seq<Push>)
      requires Consistent() && Valid(tables) && RoundTrips(marshal, parse)
      modifies this, hub
      ensures Consistent()
      ensures Served(parse, old(Model()), old(hub.Now()), RemoveResource(group, resource), ps, Model(), hub.Now())
    {
      hide Served, Begun, Valid, RoundTrips;
      ghost var r := RemoveResource(group, resource);
      if (group, resource) !in tables.members {
        ps := Refuse(r);
        return;
      }
      Begin(r, tables.(members := tables.members - {(group, resource)}));
      ps := Finish(old(Model()), old(hub.Now()), r, ResourceHosts(resource));
    }

    /** The member hosts are read before the deletion takes them out of reach. */
    method DeleteGroup(group: Uuid) returns (ps: seq<Push>)
      requires Consistent() && Valid(tables) && RoundTrips(marshal, parse)
      modifies this, hub
      ensures Consistent()
      ensures Served(parse, old(Model()), old(hub.Now()), Request.DeleteGroup(group), ps, Model(), hub.Now())
    {
      hide Served, Begun, Valid, RoundTrips;
      ghost var r := Request.DeleteGroup(group);
      var hosts := GroupHostIDs(tables, group);
      var next := RevokeGroupGrants(tables, group);
      if group !in next.groups {
        ps := Refuse(r);
        return;
      }
      Begin(r, DropGroup(next, group));
      ps := Finish(old(Model()), old(hub.Now()), r, hosts);
    }

    /** The granted hosts are read before the status is set; the snapshot filters by it. */
    method SuspendUser(user: Uuid) returns (ps: seq<Push>)
      requires Consistent() && Valid(tables) && RoundTrips(marshal, parse)
      modifies this, hub
      ensures Consistent()
      ensures Served(parse, old(Model()), old(hub.Now()), Request.SuspendUser(user), ps, Model(), hub.Now())
    {
      hide Served, Begun, Valid, RoundTrips;
      ghost var r := Request.SuspendUser(user);
      var hosts := UserGrantedHostIDs(tables, user);
      if user !in tables.users {
        ps := Refuse(r);
        return;
      }
      Begin(r, WithStatus(tables, user, Suspended));
      ps := Finish(old(Model()), old(hub.Now()), r, hosts);
    }

    method ActivateUser(user: Uuid) returns (ps: seq<Push>)
      requires Consistent() && Valid(tables) && RoundTrips(marshal, parse)
      modifies this, hub
      ensures Consistent()
      ensures Served(parse, old(Model()), old(hub.Now()), Request.ActivateUser(user), ps, Model(), hub.Now())
    {
      hide Served, Begun, Valid, RoundTrips;
      ghost var r := Request.ActivateUser(user);
      if user !in tables.users {
        ps := Refuse(r);
        return;
      }
      Begin(r, WithStatus(tables, user, Active));
      ps := Finish(old(Model()), old(hub.Now()), r, UserGrantedHostIDs(tables, user));
    }

    /** The granted hosts are read before the grants are revoked. */
    method RemoveUser(user: Uuid) returns (ps: seq<Push>)
      requires Consistent() && Valid(tables) && RoundTrips(marshal, parse)
      modifies this, hub
      ensures Consistent()
      ensures Served(parse, old(Model()), old(hub.Now()), Request.RemoveUser(user), ps, Model(), hub.Now())
    {
      hide Served, Begun, Valid, RoundTrips;
      ghost var r := Request.RemoveUser(user);
      var hosts := UserGrantedHostIDs(tables, user);
      if user !in tables.users {
        ps := Refuse(r);
        return;
      }
      var next := WithStatus(tables, user, Removed);
      Begin(r, RevokeUserGrants(next, user));
      ps := Finish(old(Model()), old(hub.Now()), r, hosts);
    }

    /** A line that does not parse is turned away before the database is asked; `base64`
        tells whether a blob decodes, `digest` is its fingerprint. */
    method AddKey(id: Uuid, user: Uuid, line: string, base64: string -> bool, digest: string -> string)
      returns (ps: seq<Push>)
      requires Consistent() && Valid(tables) && RoundTrips(marshal, parse)
      modifies this, hub
      ensures Consistent()
      ensures var parsed := ParseAuthorizedKey(line, base64);
              if parsed.None? then ps == [] && Model() == old(Model()) && hub.Now() == old(hub.Now())
              else
                var key := PublicKey(user, parsed.value.0, parsed.value.1, digest(parsed.value.1));
                Served(parse, old(Model()), old(hub.Now()), Request.AddKey(id, key), ps, Model(), hub.Now())
    {
      hide Served, Begun, RoundTrips, Fields;
      var parsed := ParseAuthorizedKey(line, base64);
      if parsed.None? { return []; }
      var key := PublicKey(user, parsed.value.0, parsed.value.1, digest(parsed.value.1));
      ghost var r := Request.AddKey(id, key);
      if user !in tables.users || id in tables.keys || Taken(tables, key.fingerprint) {
        ps := Refuse(r);
        return;
      }
      var next := tables.(keys := tables.keys[id := key]);
      Begin(r, next);
      ps := Finish(old(Model()), old(hub.Now()), r, UserGrantedHostIDs(tables, user));
    }

    method DeleteKey(id: Uuid, user: Uuid) returns (ps: seq<Push>)
      requires Consistent() && Valid(tables) && RoundTrips(marshal, parse)
      modifies this, hub
      ensures Consistent()
      ensures Served(parse, old(Model()), old(hub.Now()), Request.DeleteKey(id, user), ps, Model(), hub.Now())
    {
      hide Served, Begun, Valid, RoundTrips;
      ghost var r := Request.DeleteKey(id, user);
      if id !in tables.keys || tables.keys[id].user != user {
        ps := Refuse(r);
        return;
      }
      var next := tables.(keys := tables.keys - {id});
      Begin(r, next);
      ps := Finish(old(Model()), old(hub.Now()), r, UserGrantedHostIDs(tables, user));
    }

    /** The connect sequence after the channel is registered, whatever was queued on it since:
        build, stamp, and a blocking send. */
    method SendInitial(host: Uuid, conn: H.ConnId) returns (p: Push, done: bool)
      requires Consistent() && host in tables.hosts && RoundTrips(marshal, parse)
      modifies this`lastSeq, this`stamps, hub
      ensures Consistent() && Model() == Perform(parse, old(Model()), Transaction.Connect(p))
      ensures p.host == host && IsBuild(tables, host, p.entries) && parse(p.data) == Some(p.entries)
      ensures var env := NextEnvelope(old(lastSeq), host, p.data);
              var sent := if env.None? then Some(old(hub.Now())) else H.Delivered(old(hub.Now()), conn, env.value);
              (done <==> sent.Some?) && hub.Now() == if done then sent.value else old(hub.Now())
    {
      hide PushStep, IsBuild, NextEnvelope, RoundTrips, H.Delivered;
      var env;
      p, env := StampCurrent(host);
      done := true;
      if env.Some? {
        done := hub.BlockingSend(conn, env.value);
      }
    }

    /** The whole connect sequence with nothing in between. */
    method Connect(host: Uuid, conn: H.ConnId) returns (p: Push, done: bool)
      requires Consistent() && host in tables.hosts && RoundTrips(marshal, parse)
      modifies this`lastSeq, this`stamps, hub
      ensures Consistent() && Model() == Perform(parse, old(Model()), Transaction.Connect(p))
      ensures p.host == host && IsBuild(tables, host, p.entries) && parse(p.data) == Some(p.entries)
      ensures var env := NextEnvelope(old(lastSeq), host, p.data);
              var s := H.Apply(old(hub.Now()), H.Register(host, conn));
              var sent := if env.None? then Some(s) else H.Delivered(s, conn, env.value);
              (done <==> sent.Some?) && hub.Now() == if done then sent.value else s
    {
      hide PushStep, IsBuild, NextEnvelope, RoundTrips, H.Delivered, H.Apply;
      hub.Register(host, conn);
      p, done := SendInitial(host, conn);
    }

    /** revokeHost: status first, then an empty snapshot as the last envelope, then the
        connection is torn down. */
    method RevokeHost(host: Uuid) returns (found: bool)
      requires Consistent() && Valid(tables) && RoundTrips(marshal, parse)
      modifies this, hub
      ensures Consistent() && (found <==> host in old(tables).hosts)
      ensures !found ==> Model() == old(Model()) && hub.Now() == old(hub.Now())
      ensures found ==> Model() == Perform(parse, old(Model()), Transaction.RevokeHost(host, marshal([])))
      ensures found ==>
                var env := NextEnvelope(old(lastSeq), host, marshal([]));
                hub.Now() ==
                if env.None? then old(hub.Now()) else H.Apply(old(hub.Now()), H.Disconnect(host, env.value))
    {
      hide NextEnvelope, StampedOnce, Serve, Valid, Perform, Deactivated, MayCommit, H.Apply;
      if host !in tables.hosts { return false; }
      DeactivatedMayCommit(tables, host);
      RevokeShape(parse, Model(), host, marshal([]));
      CommitTables(Deactivated(tables, host));
      var env := SnapshotEnvelope(host, marshal([]));
      if env.Some? {
        hub.Disconnect(host, env.value);
      }
      return true;
    }
  }

  lemma DeactivatedMayCommit(t: Tables, host: Uuid)
    requires Valid(t)
    ensures MayCommit(t, Deactivated(t, host)) && Deactivated(t, host).hosts.Keys == t.hosts.Keys
  {}

  lemma RevokeShape(parse: Parser, c: Server, host: Uuid, data: Bytes)
    requires c.past != [] && host in Current(c).hosts && parse(data) == Some([])
    requires c.lastSeq.Keys == Current(c).hosts.Keys
    requires Deactivated(Current(c), host).hosts.Keys == Current(c).hosts.Keys
    ensures var c1 := Serve(parse, c, Commit(Deactivated(Current(c), host)));
            && c1.lastSeq == c.lastSeq && c1.stamps == c.stamps
            && Perform(parse, c, Transaction.RevokeHost(host, data)) == StampedOnce(c1, host, data)
  {
    hide MayCommit;
    assert Extended(c.lastSeq, Deactivated(Current(c), host).hosts.Keys) == c.lastSeq;
  }

  lemma PushedNone(parse: Parser, s: H.State, c: Server, t: Tables)
    requires c.past != []
    ensures PushAll(parse, c, []) == c && SentAll(parse, s, c, []) == s && Built(parse, t, []) && PushedHosts([]) == {}
  {
  }

  lemma PushedMore(parse: Parser, s: H.State, c: Server, t: Tables, ps: seq<Push>, p: Push)
    requires c.past != []
    ensures PushAll(parse, c, ps + [p]) == PushStep(parse, PushAll(parse, c, ps), p)
    ensures SentAll(parse, s, c, ps + [p]) == Sent(SentAll(parse, s, c, ps), PushAll(parse, c, ps), p)
    ensures Built(parse, t, ps) && IsBuild(t, p.host, p.entries) && parse(p.data) == Some(p.entries) ==>
              Built(parse, t, ps + [p])
    ensures PushedHosts(ps + [p]) == PushedHosts(ps) + {p.host}
  {
    hide PushStep, Sent, IsBuild;
    assert (ps + [p])[..|ps|] == ps;
  }
}
