/** The control-plane requests that change who may reach a host, each with the
    hosts it re-pushes (internal/controlplane: grants.go, groups.go, users.go, keys.go). */
module Requests {
  import opened Wire
  import opened Directory

  /** `id` fields of the creating requests are the fresh uuids the database draws. */
  datatype Request =
    | CreateGrant(id: Uuid, user: Uuid, permission: Permission, target: Target)
    | RevokeGrant(id: Uuid)
    | AddResource(group: Uuid, resource: Resource)
    | RemoveResource(group: Uuid, resource: Resource)
    | DeleteGroup(group: Uuid)
    | SuspendUser(user: Uuid)
    | ActivateUser(user: Uuid)
    | RemoveUser(user: Uuid)
    | AddKey(id: Uuid, key: PublicKey)
    | DeleteKey(id: Uuid, user: Uuid)

  /** The committed tables, and the hosts pushSnapshot is then called on. */
  datatype Effect = Effect(tables: Tables, pushed: set<Uuid>)

  predicate ValidGrant(target: Target, p: Permission) {
    match target
    case Global => p in {GroupCreate, HostAdd, SecretAdd, SetAdd}
    case OnHost(_) => OnHostPermission(p)
    case OnSecret(_) => OnSecretPermission(p)
    case OnSet(_) => p in {SetRead, SetManage}
    case OnGroup(_) =>
      p in {GroupRead, GroupManage, SetRead, SetManage} || OnHostPermission(p) || OnSecretPermission(p)
  }

  predicate OnHostPermission(p: Permission) {
    p in {HostAccess, HostAudit, HostRevoke, HostUpgrade}
  }

  predicate OnSecretPermission(p: Permission) {
    p in {SecretRead, SecretUpdate, SecretDelete}
  }

  /** pushIfHostGrant: the hosts a changed grant is pushed to. */
  function GrantHosts(t: Tables, p: Permission, target: Target): set<Uuid> {
    if p != HostAccess then {}
    else
      match target
      case OnHost(h) => {h}
      case OnGroup(g) => GroupHostIDs(t, g)
      case _ => {}
  }

  function WithStatus(t: Tables, user: Uuid, status: Status): Tables
    requires user in t.users
  {
    t.(users := t.users[user := t.users[user].(status := status)])
  }

  /** revoked_at set on every grant of the user, or on every grant on the group. */
  function RevokeUserGrants(t: Tables, user: Uuid): Tables {
    t.(grants := map g | g in t.grants ::
         if t.grants[g].user == user then t.grants[g].(revoked := true) else t.grants[g])
  }

  function RevokeGroupGrants(t: Tables, group: Uuid): Tables {
    t.(grants := map g | g in t.grants ::
         if t.grants[g].target == OnGroup(group) then t.grants[g].(revoked := true) else t.grants[g])
  }

  function DropGroup(t: Tables, group: Uuid): Tables {
    t.(groups := t.groups - {group}, members := set m | m in t.members && m.0 != group)
  }

  predicate Taken(t: Tables, fingerprint: string) {
    exists k :: k in t.keys && t.keys[k].fingerprint == fingerprint
  }

  /** A refused request commits nothing and pushes nothing. */
  function Refused(t: Tables): Effect {
    Effect(t, {})
  }

  function Handle(t: Tables, r: Request): Effect {
    match r
    case CreateGrant(id, user, permission, target) =>
      if !ValidGrant(target, permission) || user !in t.users || id in t.grants then Refused(t)
      else
        var t' := t.(grants := t.grants[id := Grant(user, permission, target, false)]);
        Effect(t', GrantHosts(t', permission, target))
    case RevokeGrant(id) =>
      if id !in t.grants || t.grants[id].revoked then Refused(t)
      else
        var g := t.grants[id];
        var t' := t.(grants := t.grants[id := g.(revoked := true)]);
        Effect(t', GrantHosts(t', g.permission, g.target))
    case AddResource(group, resource) =>
      if group !in t.groups then Refused(t)
      else Effect(t.(members := t.members + {(group, resource)}), ResourceHosts(resource))
    case RemoveResource(group, resource) =>
      if (group, resource) !in t.members then Refused(t)
      else Effect(t.(members := t.members - {(group, resource)}), ResourceHosts(resource))
    case DeleteGroup(group) =>
      if group !in t.groups then Refused(t)
      else Effect(DropGroup(RevokeGroupGrants(t, group), group), GroupHostIDs(t, group))
    case SuspendUser(user) =>
      if user !in t.users then Refused(t)
      else Effect(WithStatus(t, user, Suspended), UserGrantedHostIDs(t, user))
    case ActivateUser(user) =>
      if user !in t.users then Refused(t)
      else
        var t' := WithStatus(t, user, Active);
        Effect(t', UserGrantedHostIDs(t', user))
    case RemoveUser(user) =>
      if user !in t.users then Refused(t)
      else Effect(RevokeUserGrants(WithStatus(t, user, Removed), user), UserGrantedHostIDs(t, user))
    case AddKey(id, key) =>
      if !IsKey(key) || key.user !in t.users || id in t.keys || Taken(t, key.fingerprint) then Refused(t)
      else
        var t' := t.(keys := t.keys[id := key]);
        Effect(t', UserGrantedHostIDs(t', key.user))
    case DeleteKey(id, user) =>
      if id !in t.keys || t.keys[id].user != user then Refused(t)
      else
        var t' := t.(keys := t.keys - {id});
        Effect(t', UserGrantedHostIDs(t', user))
  }

  function ResourceHosts(resource: Resource): set<Uuid> {
    if resource.HostResource? then {resource.id} else {}
  }

  lemma HandleKeepsValid(t: Tables, r: Request)
    requires Valid(t)
    ensures Valid(Handle(t, r).tables) && Handle(t, r).tables.hosts == t.hosts
  {
  }

  /** A host whose rows differ has a joined row that one of the two states lacks. */
  lemma SameJoinsSameKeys(t: Tables, t': Tables, host: Uuid)
    requires forall g, k | g in t.grants && k in t.keys && Joined(t, host, t.grants[g], t.keys[k]) ::
               t.keys[k] in HostAccessKeys(t', host)
    ensures HostAccessKeys(t, host) <= HostAccessKeys(t', host)
  {
  }

  lemma Witness(t: Tables, host: Uuid, g: Uuid, k: Uuid)
    requires g in t.grants && k in t.keys && Joined(t, host, t.grants[g], t.keys[k])
    ensures t.keys[k] in HostAccessKeys(t, host)
  {
  }

  /** A row of `t` survives in `t'` unless the request pushes the host. */
  lemma RowKept(t: Tables, r: Request, host: Uuid, g: Uuid, k: Uuid)
    requires host in t.hosts && host !in Handle(t, r).pushed
    requires g in t.grants && k in t.keys && Joined(t, host, t.grants[g], t.keys[k])
    ensures t.keys[k] in HostAccessKeys(Handle(t, r).tables, host)
  {
    var t' := Handle(t, r).tables;
    var gr := t.grants[g];
    if r.DeleteGroup? && gr.target.OnGroup? {
      assert (gr.target.id, HostResource(host)) in t.members;
    }
    assert g in t'.grants && t'.grants[g] == gr;
    assert k in t'.keys && t'.keys[k] == t.keys[k];
    Witness(t', host, g, k);
  }

  /** A row of `t'` was already in `t` unless the request pushes the host. */
  lemma RowOld(t: Tables, r: Request, host: Uuid, g: Uuid, k: Uuid)
    requires host in t.hosts && host !in Handle(t, r).pushed
    requires g in Handle(t, r).tables.grants && k in Handle(t, r).tables.keys
    requires Joined(Handle(t, r).tables, host, Handle(t, r).tables.grants[g], Handle(t, r).tables.keys[k])
    ensures Handle(t, r).tables.keys[k] in HostAccessKeys(t, host)
  {
    var t' := Handle(t, r).tables;
    var gr := t'.grants[g];
    assert g in t.grants && t.grants[g] == gr;
    assert k in t.keys && t.keys[k] == t'.keys[k];
    Witness(t, host, g, k);
  }

  /** Incremental view maintenance: every existing host whose access keys a
      request changed is among the hosts the request pushes. */
  lemma ChangedHostsArePushed(t: Tables, r: Request, host: Uuid)
    requires host in t.hosts
    ensures HostAccessKeys(Handle(t, r).tables, host) != HostAccessKeys(t, host) ==> host in Handle(t, r).pushed
  {
    if host !in Handle(t, r).pushed {
      var t' := Handle(t, r).tables;
      forall g, k | g in t.grants && k in t.keys && Joined(t, host, t.grants[g], t.keys[k])
        ensures t.keys[k] in HostAccessKeys(t', host)
      {
        RowKept(t, r, host, g, k);
      }
      forall g, k | g in t'.grants && k in t'.keys && Joined(t', host, t'.grants[g], t'.keys[k])
        ensures t'.keys[k] in HostAccessKeys(t, host)
      {
        RowOld(t, r, host, g, k);
      }
      SameJoinsSameKeys(t, t', host);
      SameJoinsSameKeys(t', t, host);
    }
  }
}
