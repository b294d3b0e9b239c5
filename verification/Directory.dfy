/** The access relation in the database: users, keys, grants, groups, group
    resources and hosts (migrations/0001_init.sql), and the queries that read it. */
module Directory {
  import opened Wire
  import opened SshKey

  datatype Status = Active | Suspended | Removed

  datatype User = User(email: string, status: Status)

  datatype PublicKey = PublicKey(user: Uuid, keyType: string, blob: string, fingerprint: string)

  datatype Permission =
    | GroupCreate | HostAdd | SecretAdd | SetAdd
    | GroupRead | GroupManage
    | HostAccess | HostAudit | HostRevoke | HostUpgrade
    | SecretRead | SecretUpdate | SecretDelete
    | SetRead | SetManage

  datatype Target = Global | OnHost(id: Uuid) | OnGroup(id: Uuid) | OnSecret(id: Uuid) | OnSet(id: Uuid)

  datatype Grant = Grant(user: Uuid, permission: Permission, target: Target, revoked: bool)

  datatype Resource = HostResource(id: Uuid) | SecretResource(id: Uuid) | SetResource(id: Uuid)

  datatype Host = Host(accounts: seq<string>, active: bool)

  datatype Tables = Tables(
    users: map<Uuid, User>,
    keys: map<Uuid, PublicKey>,
    grants: map<Uuid, Grant>,
    groups: set<Uuid>,
    members: set<(Uuid, Resource)>,
    hosts: map<Uuid, Host>)

  /** Key type and blob are words of an authorized_keys line. */
  predicate IsKey(k: PublicKey) {
    IsWord(k.keyType) && IsWord(k.blob)
  }

  /** The foreign keys and the unique fingerprint index of the schema, and the form of the
      keys that were let in. */
  ghost predicate Valid(t: Tables) {
    && (forall k | k in t.keys :: IsKey(t.keys[k]))
    && (forall k | k in t.keys :: t.keys[k].user in t.users)
    && (forall g | g in t.grants :: t.grants[g].user in t.users)
    && (forall m | m in t.members :: m.0 in t.groups)
    && UniqueFingerprints(t)
  }

  ghost predicate UniqueFingerprints(t: Tables) {
    forall k, k' | k in t.keys && k' in t.keys && t.keys[k].fingerprint == t.keys[k'].fingerprint :: k == k'
  }

  /** An unrevoked host.access grant on the host itself or on a group holding it. */
  predicate Reaches(t: Tables, g: Grant, host: Uuid) {
    && g.permission == HostAccess
    && !g.revoked
    && (g.target == OnHost(host) || (g.target.OnGroup? && (g.target.id, HostResource(host)) in t.members))
  }

  predicate IsActive(t: Tables, user: Uuid) {
    user in t.users && t.users[user].status == Active
  }

  /** The join condition of HostAccessKeys for one grant and one key. */
  predicate Joined(t: Tables, host: Uuid, g: Grant, k: PublicKey) {
    Reaches(t, g, host) && IsActive(t, g.user) && k.user == g.user
  }

  /** select distinct user, type, blob and fingerprint over the joined rows. */
  function HostAccessKeys(t: Tables, host: Uuid): set<PublicKey> {
    set g, k | g in t.grants && k in t.keys && Joined(t, host, t.grants[g], t.keys[k]) :: t.keys[k]
  }

  function UserGrantedHostIDs(t: Tables, user: Uuid): set<Uuid> {
    set h, g | h in t.hosts && g in t.grants && t.grants[g].user == user && Reaches(t, t.grants[g], h) :: h
  }

  function GroupHostIDs(t: Tables, group: Uuid): set<Uuid> {
    set m | m in t.members && m.0 == group && m.1.HostResource? :: m.1.id
  }

  datatype AccessEntry = AccessEntry(
    user: Uuid, keyType: string, blob: string, fingerprint: string, accounts: seq<string>)

  function EntryOf(k: PublicKey, accounts: seq<string>): AccessEntry {
    AccessEntry(k.user, k.keyType, k.blob, k.fingerprint, accounts)
  }

  /** Access granted by the database state itself: an active user holding an
      unrevoked direct or group host.access grant owns the key. */
  ghost predicate Entitled(t: Tables, host: Uuid, k: PublicKey) {
    && IsActive(t, k.user)
    && (exists id :: id in t.keys && t.keys[id] == k)
    && (exists g :: g in t.grants && t.grants[g].user == k.user && Reaches(t, t.grants[g], host))
  }

  lemma HostAccessKeysIsEntitlement(t: Tables, host: Uuid, k: PublicKey)
    ensures k in HostAccessKeys(t, host) <==> Entitled(t, host, k)
  {
    if Entitled(t, host, k) {
      var id :| id in t.keys && t.keys[id] == k;
      var g :| g in t.grants && t.grants[g].user == k.user && Reaches(t, t.grants[g], host);
      assert Joined(t, host, t.grants[g], t.keys[id]);
    }
  }

  lemma SameFingerprintSameKey(t: Tables, host: Uuid, k: PublicKey, k': PublicKey)
    requires UniqueFingerprints(t)
    requires k in HostAccessKeys(t, host) && k' in HostAccessKeys(t, host) && k.fingerprint == k'.fingerprint
    ensures k == k'
  {
  }

  function Fingerprints(keys: set<PublicKey>): set<string> {
    set k | k in keys :: k.fingerprint
  }

  ghost function KeyWith(keys: set<PublicKey>, f: string): (k: PublicKey)
    requires f in Fingerprints(keys)
    ensures k in keys && k.fingerprint == f
  {
    var k :| k in keys && k.fingerprint == f;
    k
  }

  /** What a host's daemon should hold: one entry per entitled key, by fingerprint,
      paired with the host's accounts. */
  ghost function AccessView(t: Tables, host: Uuid): map<string, AccessEntry>
    requires host in t.hosts
  {
    var keys := HostAccessKeys(t, host);
    map f | f in Fingerprints(keys) :: EntryOf(KeyWith(keys, f), t.hosts[host].accounts)
  }

  lemma AccessViewHolds(t: Tables, host: Uuid, k: PublicKey)
    requires host in t.hosts && UniqueFingerprints(t) && k in HostAccessKeys(t, host)
    ensures k.fingerprint in AccessView(t, host)
    ensures AccessView(t, host)[k.fingerprint] == EntryOf(k, t.hosts[host].accounts)
  {
    SameFingerprintSameKey(t, host, k, KeyWith(HostAccessKeys(t, host), k.fingerprint));
  }

  /** The cache's load and apply loop: later entries win. */
  function ByFingerprint(entries: seq<AccessEntry>): map<string, AccessEntry> {
    if entries == [] then map[]
    else
      var last := entries[|entries| - 1];
      ByFingerprint(entries[..|entries| - 1])[last.fingerprint := last]
  }

  /** `entries` lists the rows of HostAccessKeys in some order, as buildSnapshot does. */
  ghost predicate IsBuild(t: Tables, host: Uuid, entries: seq<AccessEntry>) {
    && host in t.hosts
    && Elements(entries) == (set k | k in HostAccessKeys(t, host) :: EntryOf(k, t.hosts[host].accounts))
  }

  lemma {:induction false} ByFingerprintDomain(entries: seq<AccessEntry>)
    ensures forall e | e in entries :: e.fingerprint in ByFingerprint(entries)
    ensures forall f | f in ByFingerprint(entries) ::
              ByFingerprint(entries)[f] in entries && ByFingerprint(entries)[f].fingerprint == f
  {
    if entries != [] {
      var init, last := entries[..|entries| - 1], entries[|entries| - 1];
      assert entries == init + [last];
      ByFingerprintDomain(init);
    }
  }

  /** The entry is the last one listed with its fingerprint. */
  ghost predicate IsLast(entries: seq<AccessEntry>, e: AccessEntry) {
    exists i :: 0 <= i < |entries| && entries[i] == e
                && forall j | i < j < |entries| :: entries[j].fingerprint != e.fingerprint
  }

  /** Applying a list keeps, under each fingerprint, exactly the last entry listed with it. */
  lemma {:induction false} ByFingerprintIff(entries: seq<AccessEntry>, f: string, e: AccessEntry)
    ensures f in ByFingerprint(entries) && ByFingerprint(entries)[f] == e <==>
            e.fingerprint == f && IsLast(entries, e)
  {
    if entries != [] {
      var init, last := entries[..|entries| - 1], entries[|entries| - 1];
      ByFingerprintIff(init, f, e);
      if IsLast(init, e) && last.fingerprint != e.fingerprint {
        var i :| 0 <= i < |init| && init[i] == e && forall j | i < j < |init| :: init[j].fingerprint != e.fingerprint;
        assert entries[i] == e;
        assert forall j | i < j < |entries| :: entries[j] == if j < |init| then init[j] else last;
      }
      if IsLast(entries, e) && last.fingerprint != e.fingerprint {
        var i :| 0 <= i < |entries| && entries[i] == e
                 && forall j | i < j < |entries| :: entries[j].fingerprint != e.fingerprint;
        assert init[i] == e;
        assert forall j | i < j < |init| :: init[j] == entries[j];
      }
      if last == e {
        assert entries[|init|] == e;
      }
    }
  }

  /** Whatever the row order, applying a built snapshot yields the access view. */
  lemma BuildYieldsView(t: Tables, host: Uuid, entries: seq<AccessEntry>)
    requires UniqueFingerprints(t) && IsBuild(t, host, entries)
    ensures ByFingerprint(entries) == AccessView(t, host)
  {
    ByFingerprintDomain(entries);
    var m, v := ByFingerprint(entries), AccessView(t, host);
    forall f | f in m
      ensures f in v && v[f] == m[f]
    {
      BuiltEntry(t, host, entries, m[f]);
    }
    forall f | f in v
      ensures f in m
    {
      var k := KeyWith(HostAccessKeys(t, host), f);
      assert EntryOf(k, t.hosts[host].accounts) in Elements(entries);
    }
  }

  lemma BuiltEntry(t: Tables, host: Uuid, entries: seq<AccessEntry>, e: AccessEntry)
    requires UniqueFingerprints(t) && IsBuild(t, host, entries) && e in entries
    ensures e.fingerprint in AccessView(t, host) && AccessView(t, host)[e.fingerprint] == e
  {
    assert e in Elements(entries);
    var k :| k in HostAccessKeys(t, host) && e == EntryOf(k, t.hosts[host].accounts);
    AccessViewHolds(t, host, k);
  }
}
