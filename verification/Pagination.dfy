/** Keyset pagination and its cursors (internal/controlplane/pagination.go, and the page
    cut in hosts.go and access_audit.go). The formatting functions of the standard library
    and the collation of the database are parameters. */
module Pagination {
  import opened Wire

  const DEFAULT_PAGE_SIZE: nat := 10
  const MAX_PAGE_SIZE: nat := 100

  /** The ?limit parameter: blank means the default, a number below one is an error. */
  function PageSize(raw: string, atoi: string -> Option<int>): (size: Option<nat>)
    ensures size.None? <==> raw != "" && (atoi(raw).None? || atoi(raw).value < 1)
    ensures raw == "" ==> size == Some(10)
    ensures raw != "" && atoi(raw).Some? && 1 <= atoi(raw).value <= 100 ==> size == Some(atoi(raw).value)
    ensures raw != "" && atoi(raw).Some? && atoi(raw).value > 100 ==> size == Some(100)
  {
    if raw == "" then Some(DEFAULT_PAGE_SIZE)
    else match atoi(raw)
      case None => None
      case Some(n) => if n < 1 then None else if n > MAX_PAGE_SIZE then Some(MAX_PAGE_SIZE) else Some(n)
  }

  // ---------------------------------------------------------------------------
  // Cursors

  datatype UserKey = UserKey(email: string, id: Uuid)

  datatype LogKey = LogKey(at: int, id: Uuid)

  /** Base64, and the text forms of identifiers and instants. */
  datatype Formats = Formats(
    encode64: string -> string, decode64: string -> Option<string>,
    showId: Uuid -> string, parseId: string -> Option<Uuid>,
    showTime: int -> string, parseTime: string -> Option<int>)

  ghost predicate Faithful(f: Formats) {
    && (forall s :: f.decode64(f.encode64(s)) == Some(s))
    && (forall s :: f.encode64(s) == "" ==> s == "")
    && (forall id :: f.parseId(f.showId(id)) == Some(id))
    && (forall t :: f.parseTime(f.showTime(t)) == Some(t) && '|' !in f.showTime(t))
  }

  function EncodeUser(f: Formats, k: UserKey): string {
    f.encode64(k.email + "\0" + f.showId(k.id))
  }

  /** None is a bad request; Some(None) the first page. */
  function DecodeUser(f: Formats, raw: string): Option<Option<UserKey>> {
    if raw == "" then Some(None)
    else match f.decode64(raw)
      case None => None
      case Some(s) =>
        var cut := Cut(s, '\0');
        if cut.None? || cut.value.0 == "" then None
        else
          var id := f.parseId(cut.value.1);
          if id.None? then None else Some(Some(UserKey(cut.value.0, id.value)))
  }

  function EncodeLog(f: Formats, k: LogKey): string {
    f.encode64(f.showTime(k.at) + "|" + f.showId(k.id))
  }

  function DecodeLog(f: Formats, raw: string): Option<Option<LogKey>> {
    if raw == "" then Some(None)
    else match f.decode64(raw)
      case None => None
      case Some(s) =>
        var cut := Cut(s, '|');
        if cut.None? then None
        else
          var at, id := f.parseTime(cut.value.0), f.parseId(cut.value.1);
          if at.None? || id.None? then None else Some(Some(LogKey(at.value, id.value)))
  }

  /** A user cursor comes back exactly when the email is not empty and holds no NUL. */
  lemma UserCursorRoundTrips(f: Formats, k: UserKey)
    requires Faithful(f)
    ensures DecodeUser(f, EncodeUser(f, k)) == Some(Some(k)) <==> k.email != "" && '\0' !in k.email
    ensures EncodeUser(f, k) != ""
  {
    var s := k.email + "\0" + f.showId(k.id);
    assert "\0" == ['\0'] && s != "";
    CutJoined(k.email, '\0', f.showId(k.id));
    assert f.decode64(EncodeUser(f, k)) == Some(s);
    var cut := Cut(s, '\0');
    assert s[|k.email|] == '\0';
    if cut.value.0 == k.email {
      assert cut.value.1 == s[|k.email| + 1..] == f.showId(k.id);
    }
  }

  lemma LogCursorRoundTrips(f: Formats, k: LogKey)
    requires Faithful(f)
    ensures DecodeLog(f, EncodeLog(f, k)) == Some(Some(k)) && EncodeLog(f, k) != ""
  {
    var s := f.showTime(k.at) + "|" + f.showId(k.id);
    assert "|" == ['|'] && s != "";
    CutJoined(f.showTime(k.at), '|', f.showId(k.id));
    assert f.decode64(EncodeLog(f, k)) == Some(s);
  }

  /** A user cursor is accepted exactly if it decodes to an email, a NUL and an identifier, the
      email being what precedes the first NUL and not empty; only a blank one is the first page. */
  lemma DecodeUserIff(f: Formats, raw: string, k: UserKey)
    ensures DecodeUser(f, raw) == Some(None) <==> raw == ""
    ensures DecodeUser(f, raw) == Some(Some(k)) <==>
            && raw != "" && k.email != "" && '\0' !in k.email
            && exists id :: f.decode64(raw) == Some(k.email + ['\0'] + id) && f.parseId(id) == Some(k.id)
  {
    if raw != "" && f.decode64(raw).Some? {
      var s := f.decode64(raw).value;
      if cut :| Cut(s, '\0') == Some(cut) {
        assert s == cut.0 + ['\0'] + cut.1;
      }
      forall id | s == k.email + ['\0'] + id && '\0' !in k.email
        ensures Cut(s, '\0') == Some((k.email, id))
      {
        CutJoined(k.email, '\0', id);
      }
    }
    hide Cut;
  }

  /** And a log cursor exactly if it decodes to an instant, a bar and an identifier. */
  lemma DecodeLogIff(f: Formats, raw: string, k: LogKey)
    ensures DecodeLog(f, raw) == Some(None) <==> raw == ""
    ensures DecodeLog(f, raw) == Some(Some(k)) <==>
            && raw != ""
            && exists at, id ::
                 && f.decode64(raw) == Some(at + ['|'] + id) && '|' !in at
                 && f.parseTime(at) == Some(k.at) && f.parseId(id) == Some(k.id)
  {
    if raw != "" && f.decode64(raw).Some? {
      var s := f.decode64(raw).value;
      if cut :| Cut(s, '|') == Some(cut) {
        assert s == cut.0 + ['|'] + cut.1;
      }
      forall at, id | s == at + ['|'] + id && '|' !in at
        ensures Cut(s, '|') == Some((at, id))
      {
        CutJoined(at, '|', id);
      }
    }
    hide Cut;
  }

  // ---------------------------------------------------------------------------
  // Pages

  /** A list in key order, its comparison, and its cursor format. */
  datatype Listing<!R, !K> = Listing(
    key: R -> K, before: (K, K) -> bool, encode: K -> string, decode: string -> Option<Option<K>>)

  /** Rows strictly in order, so no two share a key. */
  ghost predicate InOrder<R, K>(l: Listing<R, K>, rows: seq<R>) {
    && (forall i, j | 0 <= i < j < |rows| :: l.before(l.key(rows[i]), l.key(rows[j])))
    && (forall i, j | 0 <= i <= j < |rows| :: !l.before(l.key(rows[j]), l.key(rows[i])))
  }

  ghost predicate CursorsReturn<R, K>(l: Listing<R, K>, rows: seq<R>) {
    && l.decode("") == Some(None)
    && forall r | r in rows :: l.encode(l.key(r)) != "" && l.decode(l.encode(l.key(r))) == Some(Some(l.key(r)))
  }

  /** The rows the query's keyset condition selects. */
  function Beyond<R, K>(l: Listing<R, K>, rows: seq<R>, cursor: Option<K>): seq<R> {
    if rows == [] then []
    else if cursor.None? || l.before(cursor.value, l.key(rows[0])) then [rows[0]] + Beyond(l, rows[1..], cursor)
    else Beyond(l, rows[1..], cursor)
  }

  function Fetch<R, K>(l: Listing<R, K>, rows: seq<R>, cursor: Option<K>, count: nat): seq<R> {
    var all := Beyond(l, rows, cursor);
    if |all| > count then all[..count] else all
  }

  datatype Page<R> = Page(items: seq<R>, next: string)

  /** What a page is: the first `limit` rows beyond the cursor, and a cursor to the last of
      them exactly when rows remain. */
  ghost predicate IsPage<R, K>(l: Listing<R, K>, rows: seq<R>, cursor: Option<K>, limit: nat, p: Page<R>)
    requires limit >= 1
  {
    var all := Beyond(l, rows, cursor);
    if |all| > limit then p.items == all[..limit] && p.next == l.encode(l.key(all[limit - 1]))
    else p.items == all && p.next == ""
  }

  /** One extra row tells whether there is a next page. */
  method ServePage<R, K>(l: Listing<R, K>, rows: seq<R>, cursor: Option<K>, limit: nat) returns (p: Page<R>)
    requires limit >= 1
    ensures IsPage(l, rows, cursor, limit, p)
  {
    var fetched := Fetch(l, rows, cursor, limit + 1);
    var next := "";
    if |fetched| > limit {
      var last := fetched[limit - 1];
      next := l.encode(l.key(last));
      fetched := fetched[..limit];
    }
    p := Page(fetched, next);
  }

  lemma {:induction false} BeyondNothing<R, K>(l: Listing<R, K>, rows: seq<R>)
    ensures Beyond(l, rows, None) == rows
  {
    if rows != [] {
      BeyondNothing(l, rows[1..]);
    }
  }

  lemma {:induction false} BeyondRow<R, K>(l: Listing<R, K>, rows: seq<R>, i: nat)
    requires InOrder(l, rows) && i < |rows|
    ensures Beyond(l, rows, Some(l.key(rows[i]))) == rows[i + 1..]
  {
    if i > 0 {
      BeyondRow(l, rows[1..], i - 1);
      assert rows[1..][i..] == rows[i + 1..];
    } else {
      BeyondAll(l, rows[1..], l.key(rows[0]));
    }
  }

  lemma {:induction false} BeyondAll<R, K>(l: Listing<R, K>, rows: seq<R>, k: K)
    requires forall r | r in rows :: l.before(k, l.key(r))
    ensures Beyond(l, rows, Some(k)) == rows
  {
    if rows != [] {
      assert rows[0] in rows && forall r | r in rows[1..] :: r in rows;
      BeyondAll(l, rows[1..], k);
    }
  }

  /** A cursor handed out while reading in order stands for a position in the list. */
  ghost predicate Position<R, K>(l: Listing<R, K>, rows: seq<R>, raw: string, i: nat)
  {
    && i <= |rows|
    && l.decode(raw).Some?
    && Beyond(l, rows, l.decode(raw).value) == rows[i..]
  }

  lemma StartPosition<R, K>(l: Listing<R, K>, rows: seq<R>)
    requires CursorsReturn(l, rows)
    ensures Position(l, rows, "", 0)
  {
    BeyondNothing(l, rows);
  }

  lemma NextPosition<R, K>(l: Listing<R, K>, rows: seq<R>, raw: string, i: nat, limit: nat, p: Page<R>)
    requires InOrder(l, rows) && CursorsReturn(l, rows) && limit >= 1 && Position(l, rows, raw, i)
    requires IsPage(l, rows, l.decode(raw).value, limit, p)
    ensures p.next == "" ==> p.items == rows[i..]
    ensures p.next != "" ==>
              i + limit < |rows| && p.items == rows[i..i + limit] && Position(l, rows, p.next, i + limit)
  {
    var all := rows[i..];
    if |all| > limit {
      assert all[limit - 1] == rows[i + limit - 1];
      BeyondRow(l, rows, i + limit - 1);
      assert all[..limit] == rows[i..i + limit];
    }
  }

  /** A client's visit: the pages it is served, each asked for with the cursor of the one
      before, the first with none, up to a page without a cursor. */
  ghost predicate IsVisit<R, K>(l: Listing<R, K>, rows: seq<R>, limit: nat, raw: string, pages: seq<Page<R>>)
    requires limit >= 1
    decreases |pages|
  {
    && pages != []
    && l.decode(raw).Some?
    && IsPage(l, rows, l.decode(raw).value, limit, pages[0])
    && if pages[0].next == "" then |pages| == 1 else IsVisit(l, rows, limit, pages[0].next, pages[1..])
  }

  function Items<R>(pages: seq<Page<R>>): seq<R> {
    if pages == [] then [] else pages[0].items + Items(pages[1..])
  }

  lemma {:induction false} VisitFrom<R, K>(
    l: Listing<R, K>, rows: seq<R>, limit: nat, raw: string, i: nat, pages: seq<Page<R>>)
    requires InOrder(l, rows) && CursorsReturn(l, rows) && limit >= 1 && Position(l, rows, raw, i)
    requires IsVisit(l, rows, limit, raw, pages)
    ensures Items(pages) == rows[i..]
    decreases |pages|
  {
    NextPosition(l, rows, raw, i, limit, pages[0]);
    hide IsPage, Position, InOrder, CursorsReturn;
    if pages[0].next == "" {
      assert pages[1..] == [];
    } else {
      VisitFrom(l, rows, limit, pages[0].next, i + limit, pages[1..]);
      assert rows[i..] == rows[i..i + limit] + rows[i + limit..];
    }
  }

  /** Following the cursors serves every row exactly once, in order. */
  lemma VisitServesAll<R, K>(l: Listing<R, K>, rows: seq<R>, limit: nat, pages: seq<Page<R>>)
    requires InOrder(l, rows) && CursorsReturn(l, rows) && limit >= 1 && IsVisit(l, rows, limit, "", pages)
    ensures Items(pages) == rows
  {
    StartPosition(l, rows);
    VisitFrom(l, rows, limit, "", 0, pages);
  }

  /** And it ends: from every position the visit exists, with no more pages than rows left. */
  lemma {:induction false} VisitEnds<R, K>(l: Listing<R, K>, rows: seq<R>, limit: nat, raw: string, i: nat)
    returns (pages: seq<Page<R>>)
    requires InOrder(l, rows) && CursorsReturn(l, rows) && limit >= 1 && Position(l, rows, raw, i)
    ensures IsVisit(l, rows, limit, raw, pages) && |pages| <= |rows| - i + 1
    decreases |rows| - i
  {
    var all := Beyond(l, rows, l.decode(raw).value);
    var p := if |all| > limit then Page(all[..limit], l.encode(l.key(all[limit - 1]))) else Page(all, "");
    NextPosition(l, rows, raw, i, limit, p);
    if p.next == "" {
      pages := [p];
    } else {
      var rest := VisitEnds(l, rows, limit, p.next, i + limit);
      pages := [p] + rest;
      assert pages[1..] == rest;
    }
  }

  // ---------------------------------------------------------------------------
  // The two listings

  function UserListing<R>(f: Formats, key: R -> UserKey, before: (UserKey, UserKey) -> bool): Listing<R, UserKey> {
    Listing(key, before, k => EncodeUser(f, k), raw => DecodeUser(f, raw))
  }

  function LogListing<R>(f: Formats, key: R -> LogKey, before: (LogKey, LogKey) -> bool): Listing<R, LogKey> {
    Listing(key, before, k => EncodeLog(f, k), raw => DecodeLog(f, raw))
  }

  /** Cursors of the user listing return exactly when no email is empty or holds a NUL. */
  lemma UserCursorsReturn<R>(f: Formats, key: R -> UserKey, before: (UserKey, UserKey) -> bool, rows: seq<R>)
    requires Faithful(f)
    ensures CursorsReturn(UserListing(f, key, before), rows) <==>
            forall r | r in rows :: key(r).email != "" && '\0' !in key(r).email
  {
    var l := UserListing(f, key, before);
    forall r | r in rows
      ensures l.encode(l.key(r)) != ""
      ensures l.decode(l.encode(l.key(r))) == Some(Some(l.key(r))) <==> key(r).email != "" && '\0' !in key(r).email
    {
      UserCursorRoundTrips(f, key(r));
    }
    hide Faithful;
  }

  lemma LogCursorsReturn<R>(f: Formats, key: R -> LogKey, before: (LogKey, LogKey) -> bool, rows: seq<R>)
    requires Faithful(f)
    ensures CursorsReturn(LogListing(f, key, before), rows)
  {
    forall r | r in rows
      ensures DecodeLog(f, EncodeLog(f, key(r))) == Some(Some(key(r))) && EncodeLog(f, key(r)) != ""
    {
      LogCursorRoundTrips(f, key(r));
    }
  }

  /** The access log of a host, paged newest first with any accepted ?limit. */
  lemma LogVisitServesAll<R>(f: Formats, key: R -> LogKey, before: (LogKey, LogKey) -> bool, rows: seq<R>,
                            atoi: string -> Option<int>, rawLimit: string, pages: seq<Page<R>>)
    requires Faithful(f) && InOrder(LogListing(f, key, before), rows)
    requires PageSize(rawLimit, atoi).Some?
    requires IsVisit(LogListing(f, key, before), rows, PageSize(rawLimit, atoi).value, "", pages)
    ensures Items(pages) == rows
  {
    LogCursorsReturn(f, key, before, rows);
    VisitServesAll(LogListing(f, key, before), rows, PageSize(rawLimit, atoi).value, pages);
  }
}
