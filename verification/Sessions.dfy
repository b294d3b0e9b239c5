/** Login sessions, rotating refresh tokens and short-lived access tokens
    (internal/controlplane/auth.go, middleware.go, password_reset.go, users.go).

    A run is a sequence of database steps in the order the database serializes them.
    Rows and tokens are named by the step that made them: session k was opened by the
    login at step k, and step m drew the refresh token m and the access token m. Drawn
    tokens therefore never repeat, and hashing is the identity. A refresh is two steps,
    the lookup and the transaction that rotates, because the lookup is outside the
    transaction. */
module Sessions {
  import opened Wire

  type User = Uuid

  const ACCESS_TTL: int := 15 * 60
  const REFRESH_TTL: int := 30 * 24 * 3600

  datatype Session = Session(user: User, token: nat, expires: int, revoked: bool)

  datatype Access = Access(session: nat, expires: int)

  /** `pending` holds the refreshes between their lookup and their rotation. */
  datatype Tables = Tables(sessions: map<nat, Session>, access: map<nat, Access>,
                           pending: map<nat, nat>, blocked: set<User>)

  datatype Act =
    | Login(user: User)
    | Lookup(token: nat)
    | Rotate(lookup: nat)
    | Logout(access: nat)
    | RevokeAll(user: User)
    | SetStatus(user: User, active: bool)

  datatype Event = Event(at: int, act: Act)

  /** The query behind every authenticated request, and the status test after it. */
  predicate Admits(t: Tables, a: nat, now: int) {
    && a in t.access
    && t.access[a].expires > now
    && t.access[a].session in t.sessions
    && var s := t.sessions[t.access[a].session];
       !s.revoked && s.expires > now && s.user !in t.blocked
  }

  predicate Accepts(s: Session, token: nat, now: int) {
    s.token == token && !s.revoked && s.expires > now
  }

  ghost predicate IsHolder(t: Tables, token: nat, now: int, holder: Option<nat>) {
    match holder
    case Some(k) => k in t.sessions && Accepts(t.sessions[k], token, now)
    case None => forall k | k in t.sessions :: !Accepts(t.sessions[k], token, now)
  }

  /** The session a refresh token opens. */
  ghost function Holder(t: Tables, token: nat, now: int): (holder: Option<nat>)
    ensures IsHolder(t, token, now, holder)
  {
    if k :| k in t.sessions && Accepts(t.sessions[k], token, now) then Some(k) else None
  }

  function Opened(t: Tables, n: nat, u: User, now: int): Tables {
    t.(sessions := t.sessions[n := Session(u, n, now + REFRESH_TTL, false)],
       access := t.access[n := Access(n, now + ACCESS_TTL)])
  }

  function Rotated(t: Tables, n: nat, l: nat, now: int): Tables {
    if l in t.pending && t.pending[l] in t.sessions then
      var k := t.pending[l];
      t.(sessions := t.sessions[k := t.sessions[k].(token := n)],
         access := t.access[n := Access(k, now + ACCESS_TTL)],
         pending := t.pending - {l})
    else t
  }

  function LoggedOut(t: Tables, a: nat, now: int): Tables {
    if Admits(t, a, now) then
      var k := t.access[a].session;
      t.(sessions := t.sessions[k := t.sessions[k].(revoked := true)])
    else t
  }

  function RevokedAll(t: Tables, u: User): Tables {
    t.(sessions := map k | k in t.sessions ::
         if t.sessions[k].user == u then t.sessions[k].(revoked := true) else t.sessions[k])
  }

  /** Step number `n`. */
  ghost function Step(t: Tables, n: nat, e: Event): Tables {
    match e.act
    case Login(u) => Opened(t, n, u, e.at)
    case Lookup(token) =>
      var holder := Holder(t, token, e.at);
      if holder.Some? then t.(pending := t.pending[n := holder.value]) else t
    case Rotate(l) => Rotated(t, n, l, e.at)
    case Logout(a) => LoggedOut(t, a, e.at)
    case RevokeAll(u) => RevokedAll(t, u)
    case SetStatus(u, active) => t.(blocked := if active then t.blocked - {u} else t.blocked + {u})
  }

  ghost predicate UniqueTokens(t: Tables) {
    forall k, k' | k in t.sessions && k' in t.sessions :: t.sessions[k].token == t.sessions[k'].token ==> k == k'
  }

  /** The handlers' steps on the database. */
  class Database {
    var sessions: map<nat, Session>
    var access: map<nat, Access>
    var pending: map<nat, nat>
    var blocked: set<User>
    var serial: nat

    function Now(): Tables
      reads this
    {
      Tables(sessions, access, pending, blocked)
    }

    constructor ()
      ensures Now() == Tables(map[], map[], map[], {}) && serial == 0
    {
      sessions, access, pending, blocked, serial := map[], map[], map[], {}, 0;
    }

    method MintAccessToken(session: nat, now: int) returns (token: nat)
      modifies `access
      ensures token == serial && access == old(access)[serial := Access(session, now + ACCESS_TTL)]
    {
      token := serial;
      access := access[token := Access(session, now + ACCESS_TTL)];
    }

    /** login, once the password has been verified. */
    method OpenSession(u: User, now: int) returns (refreshToken: nat, accessToken: nat)
      modifies this
      ensures Now() == Step(old(Now()), old(serial), Event(now, Login(u)))
      ensures serial == old(serial) + 1 && refreshToken == accessToken == old(serial)
    {
      refreshToken := serial;
      sessions := sessions[serial := Session(u, refreshToken, now + REFRESH_TTL, false)];
      accessToken := MintAccessToken(serial, now);
      serial := serial + 1;
    }

    /** The first half of refresh: find the session by the token's hash. */
    method FindSession(token: nat, now: int) returns (found: bool)
      requires UniqueTokens(Now())
      modifies this
      ensures Now() == Step(old(Now()), old(serial), Event(now, Lookup(token))) && serial == old(serial) + 1
      ensures found <==> exists k | k in old(sessions) :: Accepts(old(sessions)[k], token, now)
    {
      found := false;
      var rest := sessions.Keys;
      var at := 0;
      while rest != {} && !found
        invariant rest <= sessions.Keys
        invariant forall k | k in sessions && k !in rest :: Accepts(sessions[k], token, now) ==> found
        invariant found ==> at in sessions && Accepts(sessions[at], token, now)
        decreases rest, !found
      {
        var k :| k in rest;
        if Accepts(sessions[k], token, now) {
          found, at := true, k;
        }
        rest := rest - {k};
      }
      if found {
        pending := pending[serial := at];
      }
      serial := serial + 1;
    }

    /** The second half of refresh: the transaction that rotates the token. */
    method RotateToken(l: nat, now: int) returns (done: bool, refreshToken: nat, accessToken: nat)
      modifies this
      ensures Now() == Step(old(Now()), old(serial), Event(now, Rotate(l))) && serial == old(serial) + 1
      ensures done <==> l in old(pending) && old(pending)[l] in old(sessions)
      ensures done ==> refreshToken == accessToken == old(serial)
    {
      done, refreshToken, accessToken := false, serial, serial;
      if l in pending && pending[l] in sessions {
        var k := pending[l];
        sessions := sessions[k := sessions[k].(token := serial)];
        accessToken := MintAccessToken(k, now);
        pending := pending - {l};
        done := true;
      }
      serial := serial + 1;
    }

    method RevokeSession(a: nat, now: int) returns (ok: bool)
      modifies this
      ensures Now() == Step(old(Now()), old(serial), Event(now, Logout(a))) && serial == old(serial) + 1
      ensures ok == Admits(old(Now()), a, now)
    {
      ok := Admits(Now(), a, now);
      if ok {
        var k := access[a].session;
        sessions := sessions[k := sessions[k].(revoked := true)];
      }
      serial := serial + 1;
    }

    /** Suspension, removal and password reset all end here. */
    method RevokeAllUserSessions(u: User, now: int)
      modifies this
      ensures Now() == Step(old(Now()), old(serial), Event(now, RevokeAll(u))) && serial == old(serial) + 1
    {
      var rest := sessions.Keys;
      while rest != {}
        invariant rest <= sessions.Keys == old(sessions).Keys
        invariant access == old(access) && pending == old(pending) && blocked == old(blocked) && serial == old(serial)
        invariant forall k | k in rest :: sessions[k] == old(sessions)[k]
        invariant forall k | k in sessions && k !in rest :: sessions[k] == RevokedAll(old(Now()), u).sessions[k]
        decreases rest
      {
        var k :| k in rest;
        if sessions[k].user == u && !sessions[k].revoked {
          sessions := sessions[k := sessions[k].(revoked := true)];
        }
        rest := rest - {k};
      }
      assert sessions == RevokedAll(old(Now()), u).sessions;
      serial := serial + 1;
    }
  }

  // ---------------------------------------------------------------------------
  // Runs

  ghost function After(es: seq<Event>, n: nat): Tables
    requires n <= |es|
  {
    if n == 0 then Tables(map[], map[], map[], {}) else Step(After(es, n - 1), n - 1, es[n - 1])
  }

  /** The session for which step `m` drew tokens, if it drew any. */
  ghost function MintedFor(es: seq<Event>, m: nat): Option<nat>
    requires m < |es|
  {
    match es[m].act
    case Login(_) => Some(m)
    case Rotate(l) => if l in After(es, m).pending then Some(After(es, m).pending[l]) else None
    case _ => None
  }

  /** Step `j` revokes session `k`. */
  ghost predicate Revokes(es: seq<Event>, j: nat, k: nat)
    requires k < j < |es| && es[k].act.Login?
  {
    match es[j].act
    case RevokeAll(u) => u == es[k].act.user
    case Logout(a) => a < j && MintedFor(es, a) == Some(k) && Admits(After(es, j), a, es[j].at)
    case _ => false
  }

  ghost predicate RevokedBefore(es: seq<Event>, n: nat, k: nat)
    requires k < n <= |es| && es[k].act.Login?
  {
    exists j: nat | k < j < n :: Revokes(es, j, k)
  }

  /** The status of a user is the last one set. */
  ghost predicate Active(es: seq<Event>, n: nat, u: User)
    requires n <= |es|
  {
    n == 0 || if es[n - 1].act.SetStatus? && es[n - 1].act.user == u then es[n - 1].act.active else Active(es, n - 1, u)
  }

  /** `m` is the newest step that drew tokens for session `k`. */
  ghost predicate Newest(es: seq<Event>, n: nat, m: nat, k: nat)
    requires n <= |es|
  {
    m < n && MintedFor(es, m) == Some(k) && forall j: nat | m < j < n :: MintedFor(es, j) != Some(k)
  }

  // ---------------------------------------------------------------------------
  // What the tables mean in terms of the run

  ghost predicate SessionMeans(es: seq<Event>, n: nat, k: nat, s: Session)
    requires n <= |es|
  {
    && k < n && es[k].act.Login?
    && s.user == es[k].act.user
    && s.expires == es[k].at + REFRESH_TTL
    && (s.revoked <==> RevokedBefore(es, n, k))
    && Newest(es, n, s.token, k)
  }

  ghost predicate SessionsMean(es: seq<Event>, n: nat)
    requires n <= |es|
  {
    var t := After(es, n);
    && (forall k: nat | k < n && es[k].act.Login? :: k in t.sessions)
    && (forall k | k in t.sessions :: SessionMeans(es, n, k, t.sessions[k]))
  }

  ghost predicate AccessMeans(es: seq<Event>, n: nat)
    requires n <= |es|
  {
    var t := After(es, n);
    && (forall m: nat | m < n && MintedFor(es, m).Some? :: m in t.access)
    && (forall m | m in t.access ::
          m < n && MintedFor(es, m).Some? && t.access[m] == Access(MintedFor(es, m).value, es[m].at + ACCESS_TTL))
  }

  /** A pending refresh was a successful lookup. */
  ghost predicate LookedUp(es: seq<Event>, n: nat, l: nat, k: nat)
    requires n <= |es|
  {
    && l < n && es[l].act.Lookup?
    && k in After(es, l).sessions
    && Accepts(After(es, l).sessions[k], es[l].act.token, es[l].at)
  }

  ghost predicate PendingMeans(es: seq<Event>, n: nat)
    requires n <= |es|
  {
    var t := After(es, n);
    forall l | l in t.pending :: t.pending[l] in t.sessions && LookedUp(es, n, l, t.pending[l])
  }

  ghost predicate Means(es: seq<Event>, n: nat)
    requires n <= |es|
  {
    SessionsMean(es, n) && AccessMeans(es, n) && PendingMeans(es, n)
  }

  lemma NotMinted(es: seq<Event>, n: nat, k: nat, s: Session)
    requires n < |es| && SessionMeans(es, n, k, s) && MintedFor(es, n) != Some(k)
    ensures Newest(es, n + 1, s.token, k)
  {
    hide MintedFor;
  }

  lemma RevokedNext(es: seq<Event>, n: nat, k: nat)
    requires k < n < |es| && es[k].act.Login?
    ensures RevokedBefore(es, n + 1, k) <==> RevokedBefore(es, n, k) || Revokes(es, n, k)
  {
    hide Revokes;
    assert Revokes(es, n, k) ==> RevokedBefore(es, n + 1, k);
  }

  /** A step that opens, revokes and mints nothing for session `k` keeps its meaning. */
  lemma SessionKept(es: seq<Event>, n: nat, k: nat, s: Session)
    requires n < |es| && SessionMeans(es, n, k, s) && MintedFor(es, n) != Some(k)
    ensures SessionMeans(es, n + 1, k, s.(revoked := s.revoked || Revokes(es, n, k)))
  {
    hide Revokes, MintedFor, RevokedBefore, Newest;
    NotMinted(es, n, k, s);
    RevokedNext(es, n, k);
  }

  lemma LoginMeans(es: seq<Event>, n: nat)
    requires n < |es| && SessionsMean(es, n) && es[n].act.Login?
    ensures SessionsMean(es, n + 1)
  {
    var t, t' := After(es, n), After(es, n + 1);
    forall k | k in t'.sessions
      ensures SessionMeans(es, n + 1, k, t'.sessions[k])
    {
      if k == n {
        assert Newest(es, n + 1, n, n);
      } else {
        SessionKept(es, n, k, t.sessions[k]);
      }
    }
  }

  lemma RotateMeans(es: seq<Event>, n: nat)
    requires n < |es| && SessionsMean(es, n) && PendingMeans(es, n) && es[n].act.Rotate?
    ensures SessionsMean(es, n + 1)
  {
    var t, t', l := After(es, n), After(es, n + 1), es[n].act.lookup;
    forall k | k in t'.sessions
      ensures SessionMeans(es, n + 1, k, t'.sessions[k])
    {
      assert SessionMeans(es, n, k, t.sessions[k]);
      if MintedFor(es, n) == Some(k) {
        assert Newest(es, n + 1, n, k);
        RevokedNext(es, n, k);
      } else {
        SessionKept(es, n, k, t.sessions[k]);
      }
    }
  }

  lemma LogoutMeans(es: seq<Event>, n: nat)
    requires n < |es| && SessionsMean(es, n) && AccessMeans(es, n) && es[n].act.Logout?
    ensures SessionsMean(es, n + 1)
  {
    var t, t', a := After(es, n), After(es, n + 1), es[n].act.access;
    assert MintedFor(es, n) == None;
    forall k | k in t'.sessions
      ensures SessionMeans(es, n + 1, k, t'.sessions[k])
    {
      SessionKept(es, n, k, t.sessions[k]);
    }
  }

  lemma OtherMeans(es: seq<Event>, n: nat)
    requires n < |es| && SessionsMean(es, n)
    requires !es[n].act.Login? && !es[n].act.Rotate? && !es[n].act.Logout?
    ensures SessionsMean(es, n + 1)
  {
    var t, t' := After(es, n), After(es, n + 1);
    assert MintedFor(es, n) == None;
    forall k | k in t'.sessions
      ensures SessionMeans(es, n + 1, k, t'.sessions[k])
    {
      SessionKept(es, n, k, t.sessions[k]);
    }
  }

  /** The access tokens and pending refreshes one step leaves. */
  lemma StepRows(es: seq<Event>, n: nat)
    requires n < |es| && PendingMeans(es, n)
    ensures var t, t', minted := After(es, n), After(es, n + 1), MintedFor(es, n);
            && t.sessions.Keys <= t'.sessions.Keys
            && t'.access == (if minted.None? then t.access
                             else t.access[n := Access(minted.value, es[n].at + ACCESS_TTL)])
            && forall l | l in t'.pending ::
                 if l in t.pending && l != n then t'.pending[l] == t.pending[l]
                 else l == n && t'.pending[l] in t.sessions && LookedUp(es, n + 1, n, t'.pending[l])
  {
    match es[n].act
    case Lookup(token) =>
      assert IsHolder(After(es, n), token, es[n].at, Holder(After(es, n), token, es[n].at));
    case _ =>
  }

  lemma RowsKeepMeaning(es: seq<Event>, n: nat)
    requires n < |es| && AccessMeans(es, n) && PendingMeans(es, n)
    ensures AccessMeans(es, n + 1) && PendingMeans(es, n + 1)
  {
    StepRows(es, n);
    hide MintedFor, After;
  }

  lemma NothingYet(es: seq<Event>)
    ensures Means(es, 0)
  {}

  /** At every point of every run the rows mean what the run says. */
  lemma {:induction false} TablesMean(es: seq<Event>, n: nat)
    requires n <= |es|
    ensures Means(es, n)
  {
    hide SessionsMean, AccessMeans, PendingMeans;
    if n == 0 {
      NothingYet(es);
    } else {
      TablesMean(es, n - 1);
      RowsKeepMeaning(es, n - 1);
      match es[n - 1].act
      case Login(_) => LoginMeans(es, n - 1);
      case Rotate(_) => RotateMeans(es, n - 1);
      case Logout(_) => LogoutMeans(es, n - 1);
      case _ => OtherMeans(es, n - 1);
    }
  }

  lemma {:induction false} StatusMeans(es: seq<Event>, n: nat, u: User)
    requires n <= |es|
    ensures u in After(es, n).blocked <==> !Active(es, n, u)
  {
    if n > 0 {
      StatusMeans(es, n - 1, u);
    }
  }

  // ---------------------------------------------------------------------------
  // Results

  /** An access token is admitted exactly within fifteen minutes of being drawn and
      thirty days of the login, however often refreshed, while the session has not been
      revoked and the user is active. */
  lemma AdmittedIff(es: seq<Event>, n: nat, a: nat, now: int)
    requires n <= |es|
    ensures Admits(After(es, n), a, now) <==>
            && a < n && MintedFor(es, a).Some?
            && now < es[a].at + 900
            && var k := MintedFor(es, a).value;
               && k < n && es[k].act.Login?
               && now < es[k].at + 2592000
               && !RevokedBefore(es, n, k)
               && Active(es, n, es[k].act.user)
  {
    TablesMean(es, n);
    if a in After(es, n).access {
      var k := MintedFor(es, a).value;
      if k in After(es, n).sessions {
        StatusMeans(es, n, After(es, n).sessions[k].user);
      }
    }
    hide MintedFor, RevokedBefore, Active;
  }

  /** Once a session is revoked none of its access tokens is admitted again, not even one
      drawn by a refresh that was under way. */
  lemma NeverAdmittedAfterRevocation(es: seq<Event>, k: nat, j: nat, n: nat, a: nat, now: int)
    requires k < j < n <= |es| && es[k].act.Login? && Revokes(es, j, k)
    requires a < n && MintedFor(es, a) == Some(k)
    ensures !Admits(After(es, n), a, now)
  {
    AdmittedIff(es, n, a, now);
    hide Revokes, MintedFor;
  }

  /** A refresh token is honoured exactly while it is the newest of its session. */
  lemma HonouredIff(es: seq<Event>, n: nat, token: nat, now: int, k: nat)
    requires n <= |es|
    ensures Holder(After(es, n), token, now) == Some(k) <==>
            && k < n && es[k].act.Login?
            && Newest(es, n, token, k)
            && now < es[k].at + 2592000
            && !RevokedBefore(es, n, k)
  {
    TablesMean(es, n);
    var t := After(es, n);
    if k < n && es[k].act.Login? && Newest(es, n, token, k) {
      SameNewest(es, n, token, t.sessions[k].token, k);
    }
    var holder := Holder(t, token, now);
    if holder.Some? {
      assert Newest(es, n, token, holder.value);
    }
    hide MintedFor, RevokedBefore;
  }

  lemma SameNewest(es: seq<Event>, n: nat, m: nat, m': nat, k: nat)
    requires n <= |es| && Newest(es, n, m, k) && Newest(es, n, m', k)
    ensures m == m'
  {
    hide MintedFor;
  }

  lemma TokensAreUnique(es: seq<Event>, n: nat)
    requires n <= |es|
    ensures UniqueTokens(After(es, n))
  {
    TablesMean(es, n);
    hide MintedFor, RevokedBefore;
  }

  /** Step `i` completes a refresh. */
  ghost predicate Completes(es: seq<Event>, i: nat)
    requires i < |es|
  {
    es[i].act.Rotate? && MintedFor(es, i).Some?
  }

  /** The refresh token looked up for the rotation at step `i`. */
  function Presented(es: seq<Event>, i: nat): Option<nat>
    requires i < |es| && es[i].act.Rotate?
  {
    var l := es[i].act.lookup;
    if l < |es| && es[l].act.Lookup? then Some(es[l].act.token) else None
  }

  lemma CompletedFrom(es: seq<Event>, i: nat)
    requires i < |es| && Completes(es, i)
    ensures var l := es[i].act.lookup;
            LookedUp(es, i, l, MintedFor(es, i).value) && Newest(es, l, es[l].act.token, MintedFor(es, i).value)
  {
    TablesMean(es, i);
    TablesMean(es, es[i].act.lookup);
    hide RevokedBefore, Newest;
  }

  /** A refresh token is accepted twice only by refreshes that overlap: the lookup of the
      second came before the rotation of the first. */
  lemma DoubleUseOverlaps(es: seq<Event>, i: nat, j: nat)
    requires i < j < |es| && Completes(es, i) && Completes(es, j) && Presented(es, i) == Presented(es, j)
    ensures es[j].act.lookup < i
  {
    CompletedFrom(es, i);
    CompletedFrom(es, j);
    hide MintedFor, LookedUp;
  }

  /** Step `i` is the first rotation of the refresh looked up at step `l`. */
  ghost predicate FirstRotation(es: seq<Event>, l: nat, i: nat)
    requires l < i < |es|
  {
    es[l].act.Lookup? && es[i].act == Rotate(l) && forall j | l < j < i :: es[j].act != Rotate(l)
  }

  lemma {:induction false} StaysPending(es: seq<Event>, l: nat, n: nat)
    requires l < n <= |es| && es[l].act.Lookup? && Holder(After(es, l), es[l].act.token, es[l].at).Some?
    requires forall j | l < j < n :: es[j].act != Rotate(l)
    ensures l in After(es, n).pending
    ensures After(es, n).pending[l] == Holder(After(es, l), es[l].act.token, es[l].at).value
  {
    if n > l + 1 {
      StaysPending(es, l, n - 1);
      assert es[n - 1].act != Rotate(l);
    }
    hide Admits, Holder;
  }

  /** A refresh draws new tokens for a session exactly if, when its token was looked up, that was
      the session's newest and the session neither revoked nor thirty days old. */
  lemma RefreshIff(es: seq<Event>, l: nat, j: nat, k: nat)
    requires l < j < |es| && FirstRotation(es, l, j)
    ensures MintedFor(es, j) == Some(k) <==>
            && k < l && es[k].act.Login?
            && Newest(es, l, es[l].act.token, k)
            && es[l].at < es[k].at + 2592000
            && !RevokedBefore(es, l, k)
  {
    HonouredIff(es, l, es[l].act.token, es[l].at, k);
    if Holder(After(es, l), es[l].act.token, es[l].at).Some? {
      StaysPending(es, l, j);
    } else if MintedFor(es, j).Some? {
      CompletedFrom(es, j);
    }
    hide After, Newest, RevokedBefore;
  }

  /** Once a refresh has completed, another with the same token completes exactly when its
      lookup succeeded and came before that rotation. */
  lemma SecondUseIff(es: seq<Event>, i: nat, l: nat, j: nat)
    requires i < j < |es| && Completes(es, i) && l < j && FirstRotation(es, l, j)
    requires Presented(es, i) == Some(es[l].act.token)
    ensures Completes(es, j) <==> l < i && Holder(After(es, l), es[l].act.token, es[l].at).Some?
  {
    if Completes(es, j) {
      DoubleUseOverlaps(es, i, j);
      CompletedFrom(es, j);
    }
    if Holder(After(es, l), es[l].act.token, es[l].at).Some? {
      StaysPending(es, l, j);
    }
    hide After, Newest;
  }

  /** One refresh at a time: each rotation directly follows its lookup. */
  ghost predicate Serialized(es: seq<Event>) {
    forall i: nat | i < |es| && es[i].act.Rotate? :: es[i].act.lookup + 1 == i
  }

  lemma AcceptedAtMostOnce(es: seq<Event>, i: nat, j: nat)
    requires Serialized(es) && i < |es| && j < |es| && Completes(es, i) && Completes(es, j)
    requires Presented(es, i) == Presented(es, j)
    ensures i == j
  {
    if i < j {
      DoubleUseOverlaps(es, i, j);
    } else if j < i {
      DoubleUseOverlaps(es, j, i);
    }
  }

  /** Two refreshes with the same token, both looked up before either rotates. */
  function Overlapping(u: User): seq<Event> {
    [Event(0, Login(u)), Event(1, Lookup(0)), Event(1, Lookup(0)), Event(2, Rotate(1)), Event(2, Rotate(2))]
  }

  /** Both complete; only the later one's token is honoured afterwards. */
  lemma OverlappingBothComplete(u: User)
    ensures Completes(Overlapping(u), 3) && Completes(Overlapping(u), 4)
    ensures Newest(Overlapping(u), 5, 4, 0)
  {
    var es := Overlapping(u);
    var t1 := Tables(map[0 := Session(u, 0, REFRESH_TTL, false)], map[0 := Access(0, ACCESS_TTL)], map[], {});
    assert After(es, 1) == t1 by { assert After(es, 0) == Tables(map[], map[], map[], {}); }
    var t2 := t1.(pending := map[1 := 0]);
    assert After(es, 2) == t2 by { OnlyHolder(t1, u, 0, REFRESH_TTL, 1); }
    var t3 := t2.(pending := map[1 := 0, 2 := 0]);
    assert After(es, 3) == t3 by { OnlyHolder(t2, u, 0, REFRESH_TTL, 1); }
    assert After(es, 4).pending == map[2 := 0];
    hide After, Step;
  }

  lemma OnlyHolder(t: Tables, u: User, token: nat, expires: int, now: int)
    requires t.sessions == map[0 := Session(u, token, expires, false)] && now < expires
    ensures Holder(t, token, now) == Some(0)
  {
    assert Accepts(t.sessions[0], token, now);
  }
}
