/** Who may reach a host after each request, from who could before it
    (internal/controlplane: grants.go, groups.go, users.go, keys.go). */
module Entitlement {
  import opened Wire
  import opened Directory
  import opened Requests
  import opened AuthKeys

  /** The key is registered. */
  ghost predicate Registered(t: Tables, k: PublicKey) {
    exists id :: id in t.keys && t.keys[id] == k
  }

  /** The grant is an unrevoked host.access grant of the user. */
  ghost predicate AccessGrant(t: Tables, g: Uuid, user: Uuid) {
    g in t.grants && t.grants[g].user == user && t.grants[g].permission == HostAccess && !t.grants[g].revoked
  }

  /** The target is the host itself or a group that holds it. */
  ghost predicate Covers(t: Tables, target: Target, host: Uuid) {
    target == OnHost(host) || exists group :: target == OnGroup(group) && (group, HostResource(host)) in t.members
  }

  /** The user has a grant that covers the host. */
  ghost predicate Granted(t: Tables, user: Uuid, host: Uuid) {
    exists g :: AccessGrant(t, g, user) && Covers(t, t.grants[g].target, host)
  }

  /** Who is entitled to the host once the request has been handled. */
  ghost predicate EntitledAfter(t: Tables, r: Request, host: Uuid, k: PublicKey) {
    match r
    case CreateGrant(id, user, permission, target) =>
      || Entitled(t, host, k)
      || (&& id !in t.grants && permission == HostAccess && Covers(t, target, host)
          && k.user == user && IsActive(t, user) && Registered(t, k))
    case RevokeGrant(id) =>
      && IsActive(t, k.user) && Registered(t, k)
      && exists g :: g != id && AccessGrant(t, g, k.user) && Covers(t, t.grants[g].target, host)
    case AddResource(group, resource) =>
      || Entitled(t, host, k)
      || (&& group in t.groups && resource == HostResource(host) && IsActive(t, k.user) && Registered(t, k)
          && exists g :: AccessGrant(t, g, k.user) && t.grants[g].target == OnGroup(group))
    case RemoveResource(group, resource) =>
      && IsActive(t, k.user) && Registered(t, k)
      && exists g :: AccessGrant(t, g, k.user) && Covers(t, t.grants[g].target, host)
                     && !(t.grants[g].target == OnGroup(group) && resource == HostResource(host))
    case DeleteGroup(group) =>
      && IsActive(t, k.user) && Registered(t, k)
      && exists g :: AccessGrant(t, g, k.user) && Covers(t, t.grants[g].target, host)
                     && t.grants[g].target != OnGroup(group)
    case SuspendUser(user) => k.user != user && Entitled(t, host, k)
    case ActivateUser(user) =>
      if k.user == user then user in t.users && Registered(t, k) && Granted(t, user, host) else Entitled(t, host, k)
    case RemoveUser(user) => k.user != user && Entitled(t, host, k)
    case AddKey(id, key) =>
      || Entitled(t, host, k)
      || (&& k == key && IsKey(key) && id !in t.keys
          && (forall other | other in t.keys :: t.keys[other].fingerprint != key.fingerprint)
          && IsActive(t, key.user) && Granted(t, key.user, host))
    case DeleteKey(id, user) =>
      Entitled(t, host, k) && !(k.user == user && id in t.keys && t.keys[id] == k)
  }

  /** Entitlement is an active user, a registered key and a covering grant. */
  lemma EntitledMeans(t: Tables, host: Uuid, k: PublicKey)
    ensures Entitled(t, host, k) <==> IsActive(t, k.user) && Registered(t, k) && Granted(t, k.user, host)
  {
    if g :| g in t.grants && t.grants[g].user == k.user && Reaches(t, t.grants[g], host) {
      assert AccessGrant(t, g, k.user) && Covers(t, t.grants[g].target, host);
    }
    if Granted(t, k.user, host) {
      var g :| AccessGrant(t, g, k.user) && Covers(t, t.grants[g].target, host);
      assert Reaches(t, t.grants[g], host);
    }
  }

  lemma CreateGrantEntitles(
    t: Tables, id: Uuid, user: Uuid, permission: Permission, target: Target, host: Uuid, k: PublicKey)
    ensures var r := CreateGrant(id, user, permission, target);
            Entitled(Handle(t, r).tables, host, k) <==> EntitledAfter(t, r, host, k)
  {
    var t' := Handle(t, CreateGrant(id, user, permission, target)).tables;
    EntitledMeans(t, host, k);
    EntitledMeans(t', host, k);
    assert forall g | g in t.grants :: AccessGrant(t', g, k.user) == AccessGrant(t, g, k.user);
    assert Registered(t', k) == Registered(t, k) && t'.members == t.members;
    if Granted(t, k.user, host) {
      var g :| AccessGrant(t, g, k.user) && Covers(t, t.grants[g].target, host);
      assert AccessGrant(t', g, k.user) && Covers(t', t'.grants[g].target, host);
    }
    if id !in t.grants && permission == HostAccess && Covers(t, target, host) && k.user == user && IsActive(t, user) {
      assert AccessGrant(t', id, user) && Covers(t', t'.grants[id].target, host);
    }
  }

  lemma RevokeGrantEntitles(t: Tables, id: Uuid, host: Uuid, k: PublicKey)
    ensures Entitled(Handle(t, RevokeGrant(id)).tables, host, k) <==> EntitledAfter(t, RevokeGrant(id), host, k)
  {
    var t' := Handle(t, RevokeGrant(id)).tables;
    EntitledMeans(t', host, k);
    assert Registered(t', k) == Registered(t, k) && t'.members == t.members;
    forall g
      ensures AccessGrant(t', g, k.user) && Covers(t', t'.grants[g].target, host) <==>
              g != id && AccessGrant(t, g, k.user) && Covers(t, t.grants[g].target, host)
    {}
  }

  lemma AddResourceEntitles(t: Tables, group: Uuid, resource: Resource, host: Uuid, k: PublicKey)
    ensures var r := AddResource(group, resource);
            Entitled(Handle(t, r).tables, host, k) <==> EntitledAfter(t, r, host, k)
  {
    var t' := Handle(t, AddResource(group, resource)).tables;
    EntitledMeans(t, host, k);
    EntitledMeans(t', host, k);
    assert Registered(t', k) == Registered(t, k);
    forall g
      ensures AccessGrant(t', g, k.user) && Covers(t', t'.grants[g].target, host) <==>
              AccessGrant(t, g, k.user)
              && (Covers(t, t.grants[g].target, host)
                  || (group in t.groups && resource == HostResource(host) && t.grants[g].target == OnGroup(group)))
    {}
  }

  lemma RemoveResourceEntitles(t: Tables, group: Uuid, resource: Resource, host: Uuid, k: PublicKey)
    ensures var r := RemoveResource(group, resource);
            Entitled(Handle(t, r).tables, host, k) <==> EntitledAfter(t, r, host, k)
  {
    var t' := Handle(t, RemoveResource(group, resource)).tables;
    EntitledMeans(t', host, k);
    assert Registered(t', k) == Registered(t, k);
    forall g
      ensures AccessGrant(t', g, k.user) && Covers(t', t'.grants[g].target, host) <==>
              AccessGrant(t, g, k.user) && Covers(t, t.grants[g].target, host)
              && !(t.grants[g].target == OnGroup(group) && resource == HostResource(host))
    {}
  }

  lemma DeleteGroupEntitles(t: Tables, group: Uuid, host: Uuid, k: PublicKey)
    requires Valid(t)
    ensures Entitled(Handle(t, DeleteGroup(group)).tables, host, k) <==> EntitledAfter(t, DeleteGroup(group), host, k)
  {
    var t' := Handle(t, DeleteGroup(group)).tables;
    EntitledMeans(t', host, k);
    assert Registered(t', k) == Registered(t, k);
    forall g
      ensures AccessGrant(t', g, k.user) && Covers(t', t'.grants[g].target, host) <==>
              AccessGrant(t, g, k.user) && Covers(t, t.grants[g].target, host) && t.grants[g].target != OnGroup(group)
    {}
  }

  lemma StatusEntitles(t: Tables, user: Uuid, host: Uuid, k: PublicKey)
    ensures Entitled(Handle(t, SuspendUser(user)).tables, host, k) <==> EntitledAfter(t, SuspendUser(user), host, k)
    ensures Entitled(Handle(t, ActivateUser(user)).tables, host, k) <==> EntitledAfter(t, ActivateUser(user), host, k)
  {
    EntitledMeans(t, host, k);
    SameGrants(t, Handle(t, SuspendUser(user)).tables, host, k);
    SameGrants(t, Handle(t, ActivateUser(user)).tables, host, k);
  }

  lemma SameGrants(t: Tables, t': Tables, host: Uuid, k: PublicKey)
    requires t'.grants == t.grants && t'.members == t.members && t'.keys == t.keys
    ensures Entitled(t', host, k) <==> IsActive(t', k.user) && Registered(t, k) && Granted(t, k.user, host)
  {
    EntitledMeans(t', host, k);
    assert Registered(t', k) == Registered(t, k);
    assert forall g :: AccessGrant(t', g, k.user) == AccessGrant(t, g, k.user);
    assert forall target :: Covers(t', target, host) == Covers(t, target, host);
  }

  lemma RemoveUserEntitles(t: Tables, user: Uuid, host: Uuid, k: PublicKey)
    ensures Entitled(Handle(t, RemoveUser(user)).tables, host, k) <==> EntitledAfter(t, RemoveUser(user), host, k)
  {
    var t' := Handle(t, RemoveUser(user)).tables;
    EntitledMeans(t, host, k);
    EntitledMeans(t', host, k);
    assert Registered(t', k) == Registered(t, k);
    if k.user != user {
      forall g
        ensures AccessGrant(t', g, k.user) && Covers(t', t'.grants[g].target, host) <==>
                AccessGrant(t, g, k.user) && Covers(t, t.grants[g].target, host)
      {}
    }
  }

  lemma AddKeyEntitles(t: Tables, id: Uuid, key: PublicKey, host: Uuid, k: PublicKey)
    ensures Entitled(Handle(t, AddKey(id, key)).tables, host, k) <==> EntitledAfter(t, AddKey(id, key), host, k)
  {
    var t' := Handle(t, AddKey(id, key)).tables;
    EntitledMeans(t, host, k);
    EntitledMeans(t', host, k);
    assert forall g :: AccessGrant(t', g, k.user) == AccessGrant(t, g, k.user);
    assert forall target :: Covers(t', target, host) == Covers(t, target, host);
    assert Granted(t', k.user, host) == Granted(t, k.user, host);
    if Registered(t, k) {
      var other :| other in t.keys && t.keys[other] == k;
      assert other in t'.keys && t'.keys[other] == k;
    }
    assert id !in t.keys && id in t'.keys ==> t'.keys[id] == key;
  }

  lemma DeleteKeyEntitles(t: Tables, id: Uuid, user: Uuid, host: Uuid, k: PublicKey)
    requires Valid(t)
    ensures Entitled(Handle(t, DeleteKey(id, user)).tables, host, k) <==> EntitledAfter(t, DeleteKey(id, user), host, k)
  {
    var t' := Handle(t, DeleteKey(id, user)).tables;
    EntitledMeans(t, host, k);
    EntitledMeans(t', host, k);
    assert forall g :: AccessGrant(t', g, k.user) == AccessGrant(t, g, k.user);
    assert forall target :: Covers(t', target, host) == Covers(t, target, host);
    assert Granted(t', k.user, host) == Granted(t, k.user, host);
    if Registered(t, k) {
      var other :| other in t.keys && t.keys[other] == k;
      assert other != id ==> other in t'.keys && t'.keys[other] == k;
    }
  }

  /** Every request leaves entitled exactly those it should. */
  lemma HandleEntitles(t: Tables, r: Request, host: Uuid, k: PublicKey)
    requires Valid(t)
    ensures Entitled(Handle(t, r).tables, host, k) <==> EntitledAfter(t, r, host, k)
  {
    hide Handle, Entitled, EntitledAfter, Valid;
    match r {
      case CreateGrant(id, user, permission, target) =>
        CreateGrantEntitles(t, id, user, permission, target, host, k);
      case RevokeGrant(id) => RevokeGrantEntitles(t, id, host, k);
      case AddResource(group, resource) => AddResourceEntitles(t, group, resource, host, k);
      case RemoveResource(group, resource) => RemoveResourceEntitles(t, group, resource, host, k);
      case DeleteGroup(group) => DeleteGroupEntitles(t, group, host, k);
      case SuspendUser(user) => StatusEntitles(t, user, host, k);
      case ActivateUser(user) => StatusEntitles(t, user, host, k);
      case RemoveUser(user) => RemoveUserEntitles(t, user, host, k);
      case AddKey(id, key) => AddKeyEntitles(t, id, key, host, k);
      case DeleteKey(id, user) => DeleteKeyEntitles(t, id, user, host, k);
    }
  }

  /** So a key may log in after a request exactly if the account is the host's and the
      request leaves the key entitled. */
  lemma MayLogInAfter(t: Tables, r: Request, host: Uuid, fingerprint: string, account: string)
    requires Valid(t)
    ensures MayLogIn(Handle(t, r).tables, host, fingerprint, account) <==>
            && host in t.hosts && account in t.hosts[host].accounts
            && exists k :: EntitledAfter(t, r, host, k) && k.fingerprint == fingerprint
  {
    HandleKeepsValid(t, r);
    hide Handle, Entitled, EntitledAfter, Valid;
    forall k
      ensures Entitled(Handle(t, r).tables, host, k) <==> EntitledAfter(t, r, host, k)
    {
      HandleEntitles(t, r, host, k);
    }
  }

  /** Which permission can be granted on what. */
  predicate Grantable(p: Permission, target: Target) {
    match p
    case GroupCreate | HostAdd | SecretAdd | SetAdd => target.Global?
    case GroupRead | GroupManage => target.OnGroup?
    case HostAccess | HostAudit | HostRevoke | HostUpgrade => target.OnHost? || target.OnGroup?
    case SecretRead | SecretUpdate | SecretDelete => target.OnSecret? || target.OnGroup?
    case SetRead | SetManage => target.OnSet? || target.OnGroup?
  }

  /** A new grant comes to be exactly for a known user and a permission that can be granted on
      the target, and is in force from then on. */
  lemma CreatedIff(t: Tables, id: Uuid, user: Uuid, permission: Permission, target: Target)
    requires id !in t.grants
    ensures var t' := Handle(t, CreateGrant(id, user, permission, target)).tables;
            && (id in t'.grants <==> user in t.users && Grantable(permission, target))
            && (id in t'.grants ==> t'.grants[id] == Grant(user, permission, target, false))
            && forall g | g in t.grants :: g in t'.grants && t'.grants[g] == t.grants[g]
  {}

  /** Nobody is activated back into the access of a removed user: the grants are gone. */
  lemma RemovedForGood(t: Tables, user: Uuid, host: Uuid, k: PublicKey)
    requires k.user == user
    ensures var t' := Handle(t, RemoveUser(user)).tables;
            !Entitled(Handle(t', ActivateUser(user)).tables, host, k)
  {
    var t' := Handle(t, RemoveUser(user)).tables;
    StatusEntitles(t', user, host, k);
    assert user in t'.users ==> forall g :: !AccessGrant(t', g, user);
  }

  /** Nor through a group that was deleted, whatever is put into it again. */
  lemma DeletedGroupGrantsNothing(t: Tables, group: Uuid, resource: Resource, host: Uuid, g: Uuid)
    requires group in t.groups && g in t.grants && t.grants[g].target == OnGroup(group)
    ensures var t' := Handle(t, DeleteGroup(group)).tables;
            g in t'.grants && t'.grants[g].revoked && group !in t'.groups && (group, resource) !in t'.members
  {}
}
