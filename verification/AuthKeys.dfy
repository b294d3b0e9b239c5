/** Answering sshd: the lookup, the socket exchange, the fallback to disk, and what a
    printed line means in the database (internal/daemon: authserver.go, authkeys.go). */
module AuthKeys {
  import opened Wire
  import opened Register
  import opened Directory
  import opened SshKey
  import opened Replication
  import DaemonCache

  function Line(e: AccessEntry): string {
    e.keyType + " " + e.blob
  }

  /** The cached entry, when the key may log in as the account. */
  function Authorized(v: View, fingerprint: string, account: string): Option<AccessEntry> {
    if fingerprint in v && account in v[fingerprint].accounts then Some(v[fingerprint]) else None
  }

  method Authorize(v: View, fingerprint: string, account: string) returns (e: Option<AccessEntry>)
    ensures e == Authorized(v, fingerprint, account)
  {
    if fingerprint !in v { return None; }
    var entry := v[fingerprint];
    for i := 0 to |entry.accounts|
      invariant account !in entry.accounts[..i]
    {
      if entry.accounts[i] == account { return Some(entry); }
    }
    return None;
  }

  /** authorizeFromDisk on a loaded cache: the line, or nothing to deny. */
  function Answer(v: View, fingerprint: string, account: string): string {
    match Authorized(v, fingerprint, account)
    case None => ""
    case Some(e) => Line(e)
  }

  // ---------------------------------------------------------------------------
  // The socket exchange

  /** What precedes the first occurrence of `c`. */
  function Before(s: string, c: char): string {
    match Cut(s, c)
    case None => s
    case Some(parts) => parts.0
  }

  function TrimNewlines(s: string): string {
    if s != [] && s[|s| - 1] == '\n' then TrimNewlines(s[..|s| - 1]) else s
  }

  function Query(fingerprint: string, account: string): string {
    fingerprint + "\t" + account + "\n"
  }

  /** handleAuth: read one line, cut it at the first tab, answer with the line and a
      newline, or with nothing. */
  function Reply(v: View, request: string): string {
    match Cut(request, '\n')
    case None => ""
    case Some(parts) =>
      match Cut(parts.0, '\t')
      case None => ""
      case Some(fields) =>
        match Authorized(v, fields.0, fields.1)
        case None => ""
        case Some(e) => Line(e) + "\n"
  }

  /** What querySocket returns when the exchange goes through. */
  function SocketAnswer(v: View, fingerprint: string, account: string): string {
    TrimNewlines(Reply(v, Query(fingerprint, account)))
  }

  /** A fingerprint as sshkey.Fingerprint prints it holds no tab and no newline. */
  predicate Plain(s: string) {
    '\t' !in s && '\n' !in s
  }

  /** No cached line ends in a newline: key types and blobs are fields of a split line. */
  ghost predicate CleanLines(v: View) {
    forall f | f in v :: v[f].blob == "" || v[f].blob[|v[f].blob| - 1] != '\n'
  }

  /** The line the daemon reads is the query cut at the account's first newline. */
  lemma QueryLine(fingerprint: string, account: string)
    requires Plain(fingerprint)
    ensures var cut := Cut(Query(fingerprint, account), '\n');
            cut.Some? && cut.value.0 == fingerprint + "\t" + Before(account, '\n')
  {
    var a := Before(account, '\n');
    var rest := (account + "\n")[|a| + 1..];
    assert (account + "\n") == a + ['\n'] + rest;
    assert Query(fingerprint, account) == (fingerprint + "\t" + a) + ['\n'] + rest;
    CutJoined(fingerprint + "\t" + a, '\n', rest);
  }

  lemma ReplyToQuery(v: View, fingerprint: string, account: string)
    requires Plain(fingerprint)
    ensures Reply(v, Query(fingerprint, account)) ==
            match Authorized(v, fingerprint, Before(account, '\n'))
            case None => ""
            case Some(e) => Line(e) + "\n"
  {
    QueryLine(fingerprint, account);
    CutJoined(fingerprint, '\t', Before(account, '\n'));
    assert ['\t'] == "\t";
  }

  /** The request opens with a line of a fingerprint, a tab and an account. */
  ghost predicate Asks(request: string, fingerprint: string, account: string) {
    Plain(fingerprint) && '\n' !in account && fingerprint + "\t" + account + "\n" <= request
  }

  lemma AsksCuts(request: string, fingerprint: string, account: string)
    requires Asks(request, fingerprint, account)
    ensures var line := Cut(request, '\n');
            && line.Some? && line.value.0 == fingerprint + "\t" + account
            && Cut(line.value.0, '\t') == Some((fingerprint, account))
  {
    var line := fingerprint + "\t" + account;
    var rest := request[|line| + 1..];
    assert request == line + ['\n'] + rest;
    CutJoined(line, '\n', rest);
    assert ['\t'] == "\t";
    CutJoined(fingerprint, '\t', account);
  }

  /** The daemon answers a request with a key exactly if it opens with such a line and the key
      is cached with the account; every other request gets nothing. */
  lemma ReplyIff(v: View, request: string)
    ensures Reply(v, request) != "" <==>
            exists f, account :: Asks(request, f, account) && f in v && account in v[f].accounts
    ensures forall f, account | Asks(request, f, account) && f in v && account in v[f].accounts ::
              Reply(v, request) == v[f].keyType + " " + v[f].blob + "\n"
  {
    forall f, account | Asks(request, f, account)
      ensures Cut(request, '\n').Some? && Cut(Cut(request, '\n').value.0, '\t') == Some((f, account))
    {
      AsksCuts(request, f, account);
    }
    if Reply(v, request) != "" {
      var line := Cut(request, '\n').value.0;
      var fields := Cut(line, '\t').value;
      assert line == fields.0 + "\t" + fields.1;
      assert Asks(request, fields.0, fields.1);
    }
    hide Cut, Asks;
  }

  lemma TrimmedLine(e: AccessEntry)
    requires e.blob == "" || e.blob[|e.blob| - 1] != '\n'
    ensures TrimNewlines(Line(e) + "\n") == Line(e)
  {
    var l := Line(e);
    assert (l + "\n")[..|l|] == l;
    assert l[|l| - 1] == if e.blob == "" then ' ' else e.blob[|e.blob| - 1];
  }

  /** For every account the daemon answers over the socket what the disk path answers
      for the account up to its first newline. */
  lemma SocketAnswersFirstLine(v: View, fingerprint: string, account: string)
    requires Plain(fingerprint) && CleanLines(v)
    ensures SocketAnswer(v, fingerprint, account) == Answer(v, fingerprint, Before(account, '\n'))
  {
    ReplyToQuery(v, fingerprint, account);
    match Authorized(v, fingerprint, Before(account, '\n')) {
      case None =>
      case Some(e) => TrimmedLine(e);
    }
  }

  /** So the two paths agree on every cache exactly when the account has no newline. */
  lemma SocketAgreesWithDisk(fingerprint: string, account: string)
    requires Plain(fingerprint)
    ensures (forall v :: CleanLines(v) ==> SocketAnswer(v, fingerprint, account) == Answer(v, fingerprint, account))
            <==> '\n' !in account
  {
    if '\n' !in account {
      forall v | CleanLines(v)
        ensures SocketAnswer(v, fingerprint, account) == Answer(v, fingerprint, account)
      {
        SocketAnswersFirstLine(v, fingerprint, account);
      }
    } else {
      var e := AccessEntry(seq(36, _ => 0), "ssh-ed25519", "", fingerprint, [Before(account, '\n')]);
      var v: View := map[fingerprint := e];
      SocketAnswersFirstLine(v, fingerprint, account);
      assert Answer(v, fingerprint, Before(account, '\n')) == Line(e) != "";
      assert Answer(v, fingerprint, account) == "";
    }
  }

  /** After a persist that succeeded, the daemon over its socket and a reader of the file
      answer every account without a newline alike. */
  lemma PathsAgreeAfterPersist(
    codec: DaemonCache.Codec, files: DaemonCache.Files, mem: Cell<View>, fingerprint: string, account: string)
    requires DaemonCache.Faithful(codec) && DaemonCache.KeyedByFingerprint(mem.value)
    requires DaemonCache.Persists(codec, files, mem)
    requires Plain(fingerprint) && CleanLines(mem.value) && '\n' !in account
    ensures var disk := DaemonCache.Loaded(codec, files);
            disk.Some?
            && SocketAnswer(mem.value, fingerprint, account) == Answer(disk.value.value, fingerprint, account)
  {
    DaemonCache.PersistedLoads(codec, files, mem);
    SocketAgreesWithDisk(fingerprint, account);
  }

  // ---------------------------------------------------------------------------
  // AuthorizedKey

  const ATTEMPTS: nat := 3

  /** Up to three exchanges; only transport failures (None) are retried. */
  method QuerySocket(replies: seq<Option<string>>) returns (line: Option<string>)
    requires |replies| == ATTEMPTS
    ensures line.None? <==> forall i | 0 <= i < ATTEMPTS :: replies[i].None?
    ensures line.Some? ==>
              exists i :: 0 <= i < ATTEMPTS && replies[i].Some? && line.value == TrimNewlines(replies[i].value)
                          && forall j | 0 <= j < i :: replies[j].None?
  {
    for i := 0 to ATTEMPTS
      invariant forall j | 0 <= j < i :: replies[j].None?
    {
      if replies[i].Some? {
        return Some(TrimNewlines(replies[i].value));
      }
    }
    return None;
  }

  /** What AuthorizedKey returns: the daemon's answer if an exchange goes through, else the
      answer of the file, else an error. */
  function Printed(mem: View, disk: Option<View>, answered: bool, fingerprint: string, account: string): Option<string>
  {
    if answered then Some(SocketAnswer(mem, fingerprint, account))
    else if disk.None? then None
    else Some(Answer(disk.value, fingerprint, account))
  }

  /** Every exchange that goes through is with a daemon holding `mem`; the disk holds
      `disk`, or cannot be read. */
  method AuthorizedKey(
    fingerprint: Option<string>, account: string, ghost mem: View, replies: seq<Option<string>>, disk: Option<View>)
    returns (line: Option<string>)
    requires |replies| == ATTEMPTS
    requires fingerprint.Some? ==>
               forall i | 0 <= i < ATTEMPTS && replies[i].Some? ::
                 replies[i].value == Reply(mem, Query(fingerprint.value, account))
    ensures fingerprint.None? ==> line == None
    ensures fingerprint.Some? ==>
              var answered := exists i :: 0 <= i < ATTEMPTS && replies[i].Some?;
              line == Printed(mem, disk, answered, fingerprint.value, account)
  {
    if fingerprint.None? { return None; }
    var answered := QuerySocket(replies);
    if answered.Some? { return answered; }
    if disk.None? { return None; }
    var e := Authorize(disk.value, fingerprint.value, account);
    if e.None? { return Some(""); }
    return Some(Line(e.value));
  }

  // ---------------------------------------------------------------------------
  // What a printed line means

  /** In the database state: an active user with an unrevoked direct or group
      host.access grant owns the fingerprint, and the account is in the host's list. */
  ghost predicate MayLogIn(t: Tables, host: Uuid, fingerprint: string, account: string) {
    && host in t.hosts && account in t.hosts[host].accounts
    && exists k :: Entitled(t, host, k) && k.fingerprint == fingerprint
  }

  lemma ViewAnswersEntitlement(t: Tables, host: Uuid, fingerprint: string, account: string)
    requires Valid(t) && host in t.hosts
    ensures Answer(AccessView(t, host), fingerprint, account) != "" <==> MayLogIn(t, host, fingerprint, account)
    ensures forall k | Entitled(t, host, k) && k.fingerprint == fingerprint && account in t.hosts[host].accounts ::
              Answer(AccessView(t, host), fingerprint, account) == k.keyType + " " + k.blob
  {
    var v := AccessView(t, host);
    forall k | Entitled(t, host, k) && k.fingerprint == fingerprint
      ensures fingerprint in v && v[fingerprint] == EntryOf(k, t.hosts[host].accounts)
    {
      HostAccessKeysIsEntitlement(t, host, k);
      AccessViewHolds(t, host, k);
    }
    if fingerprint in v {
      HostAccessKeysIsEntitlement(t, host, KeyWith(HostAccessKeys(t, host), fingerprint));
    }
  }

  /** The line for a key and an account in a database state: the entitled key as it was
      registered, or nothing. */
  ghost predicate IsLineFor(t: Tables, host: Uuid, fingerprint: string, account: string, line: string) {
    if MayLogIn(t, host, fingerprint, account)
    then exists k :: Entitled(t, host, k) && k.fingerprint == fingerprint && line == k.keyType + " " + k.blob
    else line == ""
  }

  /** What a cache goes back to: nothing, or one committed state. */
  datatype Basis = Nobody | Committed(tables: Tables)

  ghost predicate IsBasis(past: seq<Tables>, host: Uuid, v: View, basis: Basis) {
    match basis
    case Nobody => v == map[]
    case Committed(t) => t in past && Valid(t) && host in t.hosts && v == AccessView(t, host)
  }

  ghost predicate Prints(basis: Basis, host: Uuid, fingerprint: string, account: string, line: string) {
    match basis
    case Nobody => line == ""
    case Committed(t) => IsLineFor(t, host, fingerprint, account, line)
  }

  lemma CellHasBasis(past: seq<Tables>, host: Uuid, v: View) returns (basis: Basis)
    requires EmptyOrViewed(past, host, v) && forall i | 0 <= i < |past| :: Valid(past[i])
    ensures IsBasis(past, host, v, basis)
  {
    if v == map[] {
      basis := Nobody;
    } else {
      var i :| 0 <= i < |past| && host in past[i].hosts && v == AccessView(past[i], host);
      basis := Committed(past[i]);
    }
  }

  lemma AnswerHasBasis(past: seq<Tables>, host: Uuid, v: View, basis: Basis, fingerprint: string, account: string)
    requires IsBasis(past, host, v, basis)
    ensures Prints(basis, host, fingerprint, account, Answer(v, fingerprint, account))
  {
    if basis.Committed? {
      ViewAnswersEntitlement(basis.tables, host, fingerprint, account);
      hide AccessView, Answer;
    }
  }

  lemma BasisIsClean(past: seq<Tables>, host: Uuid, v: View, basis: Basis)
    requires IsBasis(past, host, v, basis)
    ensures CleanLines(v)
  {
    if basis.Committed? {
      var keys := HostAccessKeys(basis.tables, host);
      forall f | f in v
        ensures v[f].blob == "" || v[f].blob[|v[f].blob| - 1] != '\n'
      {
        var k := KeyWith(keys, f);
        assert IsKey(k) && v[f].blob == k.blob;
        assert k.blob[|k.blob| - 1] in k.blob;
      }
    }
  }

  /** End to end, in every run. Over the socket, a line is printed for a key and an account
      exactly when the state behind the daemon's memory lets the key log in as the account
      up to its first newline; from the file, exactly when the state behind the file lets
      it log in as the account. The line is the key as registered, and a cache that goes
      back to no state prints nothing. */
  lemma PrintedLinesAreEntitled(parse: Parser, t: Tables, es: seq<Event>, m: nat)
    returns (memory: Basis, file: Basis)
    requires Valid(t) && m in Run(parse, Init(t), es).daemons
    ensures var w := Run(parse, Init(t), es);
            var d := w.daemons[m];
            && IsBasis(w.server.past, d.memFor, d.mem.value, memory)
            && IsBasis(w.server.past, d.diskFor, d.disk.value, file)
            && (forall f, a | Plain(f) ::
                  Prints(memory, d.memFor, f, Before(a, '\n'),
                         Printed(d.mem.value, Some(d.disk.value), true, f, a).value))
            && (forall f, a ::
                  Prints(file, d.diskFor, f, a, Printed(d.mem.value, Some(d.disk.value), false, f, a).value))
  {
    CacheIsEmptyOrOnceViewed(parse, t, es, m);
    RunKeepsInv(parse, Init(t), es);
    var w := Run(parse, Init(t), es);
    PastIsValid(parse, w);
    hide Run, Inv, EmptyOrViewed, IsBasis, Prints, Printed;
    memory, file := DaemonPrints(w.server.past, w.daemons[m]);
  }

  lemma DaemonPrints(past: seq<Tables>, d: Daemon) returns (memory: Basis, file: Basis)
    requires EmptyOrViewed(past, d.memFor, d.mem.value) && EmptyOrViewed(past, d.diskFor, d.disk.value)
    requires forall i | 0 <= i < |past| :: Valid(past[i])
    ensures IsBasis(past, d.memFor, d.mem.value, memory) && IsBasis(past, d.diskFor, d.disk.value, file)
    ensures forall f, a | Plain(f) ::
              Prints(memory, d.memFor, f, Before(a, '\n'), Printed(d.mem.value, Some(d.disk.value), true, f, a).value)
    ensures forall f, a ::
              Prints(file, d.diskFor, f, a, Printed(d.mem.value, Some(d.disk.value), false, f, a).value)
  {
    hide AccessView, Before, SocketAnswer, Answer, EmptyOrViewed, IsBasis, Prints, CleanLines;
    memory := CellHasBasis(past, d.memFor, d.mem.value);
    file := CellHasBasis(past, d.diskFor, d.disk.value);
    BasisIsClean(past, d.memFor, d.mem.value, memory);
    forall f, a | Plain(f)
      ensures Prints(memory, d.memFor, f, Before(a, '\n'), SocketAnswer(d.mem.value, f, a))
    {
      SocketAnswersFirstLine(d.mem.value, f, a);
      AnswerHasBasis(past, d.memFor, d.mem.value, memory, f, Before(a, '\n'));
    }
    forall f, a
      ensures Prints(file, d.diskFor, f, a, Answer(d.disk.value, f, a))
    {
      AnswerHasBasis(past, d.diskFor, d.disk.value, file, f, a);
    }
  }

  /** So a line is printed exactly when the state lets the key log in, and it parses back to
      the key that was registered. */
  lemma PrintedIff(t: Tables, host: Uuid, fingerprint: string, account: string, line: string, base64: string -> bool)
    requires Valid(t) && IsLineFor(t, host, fingerprint, account, line)
    ensures line != "" <==> MayLogIn(t, host, fingerprint, account)
    ensures line != "" && (forall k | Entitled(t, host, k) :: base64(k.blob)) ==>
              exists k :: Entitled(t, host, k) && k.fingerprint == fingerprint
                          && ParseAuthorizedKey(line, base64) == Some((k.keyType, k.blob))
  {
    if MayLogIn(t, host, fingerprint, account) {
      var k :| Entitled(t, host, k) && k.fingerprint == fingerprint && line == k.keyType + " " + k.blob;
      assert IsKey(k);
      if base64(k.blob) {
        PrintedLineParses(k.keyType, k.blob, "", base64);
        assert line + "" == line;
      }
    }
  }

  lemma PastIsValid(parse: Parser, w: World)
    requires Inv(parse, w)
    ensures forall i | 0 <= i < |w.server.past| :: Valid(w.server.past[i])
  {}

  // ---------------------------------------------------------------------------
  // A purged cache

  /** Nothing is delivered to the machine, and it starts again only if `restarts`. */
  ghost predicate Undelivered(e: Event, m: nat, restarts: bool) {
    e.AtDaemon? && e.machine == m ==> e.de.Purge? || (restarts && e.de.Restart?)
  }

  lemma PurgedStep(parse: Parser, w: World, m: nat, e: Event, saved: bool)
    requires w.server.past != [] && m in w.daemons && Undelivered(e, m, saved)
    requires w.daemons[m].mem.value == map[] && (saved ==> w.daemons[m].disk.value == map[])
    ensures var w' := Step(parse, w, e);
            && m in w'.daemons && w'.daemons[m].mem.value == map[] && (saved ==> w'.daemons[m].disk.value == map[])
  {
    hide Serve, Dispatch;
  }

  lemma {:induction false} PurgedRun(parse: Parser, w: World, m: nat, es: seq<Event>, saved: bool)
    requires w.server.past != [] && m in w.daemons && forall e | e in es :: Undelivered(e, m, saved)
    requires w.daemons[m].mem.value == map[] && (saved ==> w.daemons[m].disk.value == map[])
    ensures var w' := Run(parse, w, es);
            && m in w'.daemons && w'.daemons[m].mem.value == map[] && (saved ==> w'.daemons[m].disk.value == map[])
  {
    hide Step, Undelivered;
    if es != [] {
      var init, last := es[..|es| - 1], es[|es| - 1];
      assert last in es && forall e | e in init :: e in es;
      PurgedRun(parse, w, m, init, saved);
      PurgedStep(parse, Run(parse, w, init), m, last, saved);
    }
  }

  /** After a purge a machine lets nobody in until a snapshot reaches it: not from memory, and if
      the purge was written, not from the file either, even across restarts. */
  lemma PurgedPrintsNothing(
    parse: Parser, w: World, m: nat, saved: bool, es: seq<Event>, fingerprint: string, account: string)
    requires w.server.past != [] && m in w.daemons && forall e | e in es :: Undelivered(e, m, saved)
    ensures var w' := Run(parse, Step(parse, w, AtDaemon(m, Purge(saved))), es);
            && m in w'.daemons && Answer(w'.daemons[m].mem.value, fingerprint, account) == ""
            && (saved ==> Answer(w'.daemons[m].disk.value, fingerprint, account) == "")
            && (saved ==> w'.daemons[m].mem.number == w.daemons[m].mem.number)
  {
    var w1 := Step(parse, w, AtDaemon(m, Purge(saved)));
    PurgedRun(parse, w1, m, es, saved);
    PurgedNumber(parse, w1, m, es, saved);
    hide Run, Step;
  }

  lemma {:induction false} PurgedNumber(parse: Parser, w: World, m: nat, es: seq<Event>, saved: bool)
    requires w.server.past != [] && m in w.daemons && forall e | e in es :: Undelivered(e, m, saved)
    requires saved ==> w.daemons[m].disk.number == w.daemons[m].mem.number
    ensures var w' := Run(parse, w, es);
            m in w'.daemons && (saved ==> w'.daemons[m].mem.number == w.daemons[m].mem.number
                                          && w'.daemons[m].disk.number == w.daemons[m].mem.number)
  {
    hide Serve, Dispatch;
    if es != [] {
      var init, last := es[..|es| - 1], es[|es| - 1];
      assert last in es && forall e | e in init :: e in es;
      PurgedNumber(parse, w, m, init, saved);
    }
  }

  /** A machine that starts answers on both paths from its file. */
  lemma StartedAnswersFromFile(parse: Parser, w: World, m: nat, fingerprint: string, account: string)
    requires w.server.past != [] && m in w.daemons
    ensures var w' := Step(parse, w, AtDaemon(m, Restart));
            && w'.daemons[m].disk == w.daemons[m].disk == w'.daemons[m].mem
            && Answer(w'.daemons[m].mem.value, fingerprint, account) ==
               Answer(w.daemons[m].disk.value, fingerprint, account)
  {}
}
