/** The host access audit: who can log in to a host and by which grants, a page of users at
    a time (internal/controlplane/access_audit.go). */
module AccessAudit {
  import opened Wire
  import opened Directory
  import opened Pagination

  datatype AuditUser = AuditUser(id: Uuid, email: string, fingerprints: set<string>)

  /** A grant that lets the user in, directly or through a group. */
  datatype Path = Direct(grant: Uuid) | ViaGroup(grant: Uuid, group: Uuid)

  datatype PathRow = PathRow(user: Uuid, path: Path)

  datatype Entry = Entry(user: AuditUser, paths: seq<Path>)

  // ---------------------------------------------------------------------------
  // The queries

  function AccessUsers(t: Tables, host: Uuid): set<Uuid> {
    set g | g in t.grants && Reaches(t, t.grants[g], host) && IsActive(t, t.grants[g].user) :: t.grants[g].user
  }

  function OwnFingerprints(t: Tables, user: Uuid): set<string> {
    set k | k in t.keys && t.keys[k].user == user :: t.keys[k].fingerprint
  }

  /** ListHostAccessUsers without its cursor and limit: the listed users, in listing order. */
  ghost predicate IsUserRows(t: Tables, host: Uuid, rows: seq<AuditUser>) {
    && (forall u :: u in AccessUsers(t, host) <==> exists i | 0 <= i < |rows| :: rows[i].id == u)
    && (forall i | 0 <= i < |rows| ::
          && rows[i].id in t.users
          && rows[i].email == t.users[rows[i].id].email
          && rows[i].fingerprints == OwnFingerprints(t, rows[i].id))
  }

  /** The path a grant is, joined with the group it names if it names one. */
  function PathOf(t: Tables, host: Uuid, g: Uuid): Option<Path>
    requires g in t.grants
  {
    var grant := t.grants[g];
    if grant.revoked || grant.permission != HostAccess then None
    else if grant.target == OnHost(host) then Some(Direct(g))
    else if grant.target.OnGroup? && grant.target.id in t.groups && (grant.target.id, HostResource(host)) in t.members
    then Some(ViaGroup(g, grant.target.id))
    else None
  }

  function GrantPaths(t: Tables, host: Uuid, user: Uuid): set<Path> {
    set g | g in t.grants && t.grants[g].user == user && PathOf(t, host, g).Some? :: PathOf(t, host, g).value
  }

  ghost predicate NoRepeats<T>(s: seq<T>) {
    forall i, j | 0 <= i < j < |s| :: s[i] != s[j]
  }

  /** ListHostAccessPathsForUsers: the paths of the given users, one row each. */
  ghost predicate IsPathRows(t: Tables, host: Uuid, users: set<Uuid>, rows: seq<PathRow>) {
    && NoRepeats(rows)
    && forall u, p :: PathRow(u, p) in rows <==> u in users && p in GrantPaths(t, host, u)
  }

  // ---------------------------------------------------------------------------
  // Grouping

  /** A user's paths, in row order. */
  function PathsOf(rows: seq<PathRow>, user: Uuid): seq<Path> {
    if rows == [] then []
    else
      var last := rows[|rows| - 1];
      PathsOf(rows[..|rows| - 1], user) + if last.user == user then [last.path] else []
  }

  ghost predicate DistinctUsers(users: seq<AuditUser>) {
    forall i, j | 0 <= i < j < |users| :: users[i].id != users[j].id
  }

  ghost predicate IsGrouping(users: seq<AuditUser>, rows: seq<PathRow>, entries: seq<Entry>) {
    && |entries| == |users|
    && forall i | 0 <= i < |users| :: entries[i] == Entry(users[i], PathsOf(rows, users[i].id))
  }

  /** The index from a user id to its entry is right. */
  ghost predicate Indexed(users: seq<AuditUser>, n: nat, byUser: map<Uuid, nat>)
    requires n <= |users|
  {
    && (forall i | 0 <= i < n :: users[i].id in byUser && byUser[users[i].id] == i)
    && (forall u | u in byUser :: byUser[u] < n && users[byUser[u]].id == u)
  }

  /** The two loops of handleHostAccessAudit: one entry per user, then each path row
      appended to its user's entry. */
  method GroupPaths(users: seq<AuditUser>, rows: seq<PathRow>) returns (entries: seq<Entry>)
    requires DistinctUsers(users)
    ensures IsGrouping(users, rows, entries)
  {
    entries := [];
    var byUser: map<Uuid, nat> := map[];
    for n := 0 to |users|
      invariant IsGrouping(users[..n], [], entries) && Indexed(users, n, byUser)
    {
      byUser := byUser[users[n].id := |entries|];
      entries := entries + [Entry(users[n], [])];
    }
    assert users[..|users|] == users;
    for n := 0 to |rows|
      invariant IsGrouping(users, rows[..n], entries)
    {
      var row := rows[n];
      assert rows[..n + 1][..n] == rows[..n];
      if row.user in byUser {
        var i := byUser[row.user];
        entries := entries[i := entries[i].(paths := entries[i].paths + [row.path])];
      }
    }
    assert rows[..|rows|] == rows;
  }

  // ---------------------------------------------------------------------------
  // Results

  lemma {:induction false} PathsOfElements(rows: seq<PathRow>, user: Uuid, p: Path)
    ensures p in PathsOf(rows, user) <==> PathRow(user, p) in rows
  {
    if rows != [] {
      var init := rows[..|rows| - 1];
      assert rows == init + [rows[|rows| - 1]];
      PathsOfElements(init, user, p);
    }
  }

  lemma {:induction false} PathsOfDistinct(rows: seq<PathRow>, user: Uuid)
    requires NoRepeats(rows)
    ensures NoRepeats(PathsOf(rows, user))
  {
    if rows != [] {
      var init, last := rows[..|rows| - 1], rows[|rows| - 1];
      assert NoRepeats(init) && last !in init;
      PathsOfDistinct(init, user);
      PathsOfElements(init, user, last.path);
    }
  }

  function Ids(users: seq<AuditUser>): set<Uuid> {
    set u | u in users :: u.id
  }

  /** Every entry of a page carries all of its user's paths, each once: a page never splits
      a user. */
  lemma EntryIsWhole(t: Tables, host: Uuid, page: seq<AuditUser>, rows: seq<PathRow>, entries: seq<Entry>, i: nat)
    requires IsPathRows(t, host, Ids(page), rows) && IsGrouping(page, rows, entries) && i < |page|
    ensures entries[i].user == page[i]
    ensures NoRepeats(entries[i].paths) && Elements(entries[i].paths) == GrantPaths(t, host, page[i].id)
  {
    var u := page[i].id;
    PathsOfDistinct(rows, u);
    assert page[i] in page && u in Ids(page);
    forall p
      ensures p in Elements(entries[i].paths) <==> p in GrantPaths(t, host, u)
    {
      PathsOfElements(rows, u, p);
    }
  }

  /** A path names an unrevoked host.access grant of the user: a direct one is on the host, one via
      a group is on a group that exists and holds the host. */
  lemma PathsMean(t: Tables, host: Uuid, user: Uuid, g: Uuid, group: Uuid)
    ensures Direct(g) in GrantPaths(t, host, user) <==>
            g in t.grants && t.grants[g] == Grant(user, HostAccess, OnHost(host), false)
    ensures ViaGroup(g, group) in GrantPaths(t, host, user) <==>
            && g in t.grants && t.grants[g] == Grant(user, HostAccess, OnGroup(group), false)
            && group in t.groups && (group, HostResource(host)) in t.members
  {
    if g in t.grants && t.grants[g].user == user && PathOf(t, host, g).Some? {
      assert PathOf(t, host, g).value in GrantPaths(t, host, user);
    }
  }

  /** A listed user has a path, and a user with a path who is active is listed. */
  lemma ListedIffPath(t: Tables, host: Uuid, user: Uuid)
    requires Valid(t)
    ensures user in AccessUsers(t, host) <==> IsActive(t, user) && GrantPaths(t, host, user) != {}
  {
    if user in AccessUsers(t, host) {
      var g :| g in t.grants && Reaches(t, t.grants[g], host) && t.grants[g].user == user;
      assert PathOf(t, host, g).Some?;
      assert PathOf(t, host, g).value in GrantPaths(t, host, user);
    }
    if IsActive(t, user) && GrantPaths(t, host, user) != {} {
      var p :| p in GrantPaths(t, host, user);
      var g :| g in t.grants && t.grants[g].user == user && PathOf(t, host, g) == Some(p);
      assert Reaches(t, t.grants[g], host);
    }
  }

  ghost function AllFingerprints(users: seq<AuditUser>): set<string> {
    set u, f | u in users && f in u.fingerprints :: f
  }

  lemma ListedFingerprint(t: Tables, host: Uuid, rows: seq<AuditUser>, f: string)
    requires IsUserRows(t, host, rows)
    ensures f in AllFingerprints(rows) <==> f in Fingerprints(HostAccessKeys(t, host))
  {
    if f in AllFingerprints(rows) {
      var i :| 0 <= i < |rows| && f in rows[i].fingerprints;
      var u := rows[i].id;
      assert u in AccessUsers(t, host);
      var g :| g in t.grants && Reaches(t, t.grants[g], host) && IsActive(t, t.grants[g].user) && t.grants[g].user == u;
      var k :| k in t.keys && t.keys[k].user == u && t.keys[k].fingerprint == f;
      assert Joined(t, host, t.grants[g], t.keys[k]);
      assert t.keys[k] in HostAccessKeys(t, host);
    }
    if f in Fingerprints(HostAccessKeys(t, host)) {
      var key :| key in HostAccessKeys(t, host) && key.fingerprint == f;
      var g, k :| g in t.grants && k in t.keys && Joined(t, host, t.grants[g], t.keys[k]) && t.keys[k] == key;
      assert key.user in AccessUsers(t, host);
      var i :| 0 <= i < |rows| && rows[i].id == key.user;
      assert f in OwnFingerprints(t, key.user) && rows[i] in rows;
    }
  }

  function KeyOf(u: AuditUser): UserKey {
    UserKey(u.email, u.id)
  }

  function Audit(f: Formats, before: (UserKey, UserKey) -> bool): Listing<AuditUser, UserKey> {
    UserListing(f, (u: AuditUser) => KeyOf(u), before)
  }

  /** Whatever the page size, the pages of the audit list exactly the fingerprints the
      snapshot of the same state holds. */
  lemma AuditMatchesSnapshot(
    t: Tables, host: Uuid, rows: seq<AuditUser>, f: Formats, before: (UserKey, UserKey) -> bool,
    limit: nat, pages: seq<Page<AuditUser>>)
    requires IsUserRows(t, host, rows) && host in t.hosts && Faithful(f)
    requires InOrder(Audit(f, before), rows)
    requires forall u | u in rows :: u.email != "" && '\0' !in u.email
    requires 1 <= limit <= MAX_PAGE_SIZE && IsVisit(Audit(f, before), rows, limit, "", pages)
    ensures Items(pages) == rows
    ensures AllFingerprints(Items(pages)) == AccessView(t, host).Keys
  {
    UserCursorsReturn(f, (u: AuditUser) => KeyOf(u), before, rows);
    VisitServesAll(Audit(f, before), rows, limit, pages);
    forall mark
      ensures mark in AllFingerprints(rows) <==> mark in Fingerprints(HostAccessKeys(t, host))
    {
      ListedFingerprint(t, host, rows, mark);
    }
  }

  /** Every user the audit lists is listed once, with at least one path. */
  lemma ListedAreJustified(
    t: Tables, host: Uuid, rows: seq<AuditUser>, before: (UserKey, UserKey) -> bool, f: Formats, i: nat)
    requires Valid(t) && IsUserRows(t, host, rows) && InOrder(Audit(f, before), rows) && i < |rows|
    ensures GrantPaths(t, host, rows[i].id) != {}
    ensures DistinctUsers(rows)
  {
    assert rows[i].id in AccessUsers(t, host);
    ListedIffPath(t, host, rows[i].id);
    forall i, j | 0 <= i < j < |rows|
      ensures rows[i].id != rows[j].id
    {
      assert before(KeyOf(rows[i]), KeyOf(rows[j])) && !before(KeyOf(rows[j]), KeyOf(rows[i]));
    }
  }
}
