/** Enrolment of hosts with single-use tokens (internal/controlplane/enroll.go) and their
    revocation (hosts.go).

    A run is a sequence of database steps. Rows are named by the step that inserted them:
    token m was created by step m, host n by the committing step n. An enrolment is four
    steps of one read-committed transaction, three reads and its writes, so that the steps of
    others may fall between any of them. */
module Enrolment {
  import opened Wire

  type Machine = string

  type Accounts = set<string>

  datatype Host = Host(identityKey: string, machine: Option<Machine>, accounts: Accounts, active: bool)

  datatype Token = Token(accounts: Accounts, expires: int, usedFor: Option<nat>)

  /** What an enrolling daemon sends; `prior` is a host id that parsed. */
  datatype Request = Request(token: nat, identityKey: string, machine: Option<Machine>, prior: Option<nat>)

  /** The last read that an enrolment under way has passed. */
  datatype Stage = TokenRead | MachineRead | PriorRead

  datatype Pending = Pending(request: Request, stage: Stage)

  datatype Tables = Tables(hosts: map<nat, Host>, tokens: map<nat, Token>, pending: map<nat, Pending>)

  datatype Act =
    | Issue(accounts: Accounts, expires: int)
    | ReadToken(request: Request)
    | ReadMachine(start: nat)           // of the enrolment whose token read was step `start`
    | ReadPrior(start: nat)
    | Commit(start: nat)
    | Revoke(host: nat)

  datatype Event = Event(at: int, act: Act)

  datatype Outcome = InvalidToken | AlreadyEnrolled | Enrolled(host: nat)

  predicate Usable(t: Tables, token: nat, now: int) {
    token in t.tokens && t.tokens[token].usedFor.None? && t.tokens[token].expires >= now
  }

  ghost predicate MachineTaken(t: Tables, machine: Option<Machine>) {
    machine.Some? && exists h | h in t.hosts :: t.hosts[h].active && t.hosts[h].machine == machine
  }

  predicate PriorActive(t: Tables, prior: Option<nat>) {
    prior.Some? && prior.value in t.hosts && t.hosts[prior.value].active
  }

  ghost predicate KeyTaken(t: Tables, key: string) {
    exists h | h in t.hosts :: t.hosts[h].identityKey == key
  }

  /** The reads let the request through, if nothing changes between them. */
  ghost predicate Passes(t: Tables, r: Request, now: int) {
    Usable(t, r.token, now) && !MachineTaken(t, r.machine) && !PriorActive(t, r.prior)
  }

  /** The unique indexes let the host be inserted. */
  ghost predicate Inserts(t: Tables, r: Request) {
    r.token in t.tokens && !KeyTaken(t, r.identityKey) && !MachineTaken(t, r.machine)
  }

  function Inserted(t: Tables, n: nat, r: Request): Tables
    requires r.token in t.tokens
  {
    t.(hosts := t.hosts[n := Host(r.identityKey, r.machine, t.tokens[r.token].accounts, true)],
       tokens := t.tokens[r.token := t.tokens[r.token].(usedFor := Some(n))])
  }

  predicate At(t: Tables, c: nat, stage: Stage) {
    c in t.pending && t.pending[c].stage == stage
  }

  /** A read lets the enrolment go on to the next stage, or ends it. */
  function Checked(t: Tables, c: nat, stage: Stage, passed: bool): Tables
    requires c in t.pending
  {
    t.(pending := if passed then t.pending[c := t.pending[c].(stage := stage)] else t.pending - {c})
  }

  ghost function Step(t: Tables, n: nat, e: Event): Tables {
    match e.act
    case Issue(accounts, expires) => t.(tokens := t.tokens[n := Token(accounts, expires, None)])
    case ReadToken(r) =>
      if Usable(t, r.token, e.at) then t.(pending := t.pending[n := Pending(r, TokenRead)]) else t
    case ReadMachine(c) =>
      if !At(t, c, TokenRead) then t
      else Checked(t, c, MachineRead, !MachineTaken(t, t.pending[c].request.machine))
    case ReadPrior(c) =>
      if !At(t, c, MachineRead) then t
      else Checked(t, c, PriorRead, !PriorActive(t, t.pending[c].request.prior))
    case Commit(c) =>
      if !At(t, c, PriorRead) then t
      else
        var t' := t.(pending := t.pending - {c});
        if Inserts(t, t.pending[c].request) then Inserted(t', n, t.pending[c].request) else t'
    case Revoke(h) => if h in t.hosts then t.(hosts := t.hosts[h := t.hosts[h].(active := false)]) else t
  }

  /** The four steps of one enrolment in a row, the first of them step `n`. */
  ghost function Undisturbed(t: Tables, n: nat, r: Request, now: int): Tables {
    var t1 := Step(t, n, Event(now, ReadToken(r)));
    var t2 := Step(t1, n + 1, Event(now, ReadMachine(n)));
    var t3 := Step(t2, n + 2, Event(now, ReadPrior(n)));
    Step(t3, n + 3, Event(now, Commit(n)))
  }

  /** In a row, the reads see one state. */
  lemma UndisturbedMeans(t: Tables, n: nat, r: Request, now: int)
    requires n !in t.pending
    ensures Undisturbed(t, n, r, now) ==
            if Passes(t, r, now) && Inserts(t, r) then Inserted(t, n + 3, r) else t
  {
    if Usable(t, r.token, now) {
      assert t.pending[n := Pending(r, TokenRead)] - {n} == t.pending;
      if !MachineTaken(t, r.machine) {
        assert t.pending[n := Pending(r, TokenRead)][n := Pending(r, MachineRead)] ==
               t.pending[n := Pending(r, MachineRead)];
        assert t.pending[n := Pending(r, MachineRead)] - {n} == t.pending;
        assert t.pending[n := Pending(r, MachineRead)][n := Pending(r, PriorRead)] - {n} == t.pending;
      }
    }
  }

  /** The tables behind the handlers. */
  class Database {
    var hosts: map<nat, Host>
    var tokens: map<nat, Token>
    var serial: nat

    function Now(): Tables
      reads this
    {
      Tables(hosts, tokens, map[])
    }

    constructor ()
      ensures Now() == Tables(map[], map[], map[]) && serial == 0
    {
      hosts, tokens, serial := map[], map[], 0;
    }

    method ActiveHostOf(machine: Machine) returns (found: bool)
      ensures found <==> MachineTaken(Now(), Some(machine))
    {
      found := false;
      var rest := hosts.Keys;
      while rest != {} && !found
        invariant rest <= hosts.Keys
        invariant found ==> MachineTaken(Now(), Some(machine))
        invariant !found ==>
                    forall h | h in hosts && h !in rest :: !(hosts[h].active && hosts[h].machine == Some(machine))
        decreases rest, !found
      {
        var h :| h in rest;
        found := hosts[h].active && hosts[h].machine == Some(machine);
        rest := rest - {h};
      }
    }

    method HostWithKey(key: string) returns (found: bool)
      ensures found <==> KeyTaken(Now(), key)
    {
      found := false;
      var rest := hosts.Keys;
      while rest != {} && !found
        invariant rest <= hosts.Keys
        invariant found ==> KeyTaken(Now(), key)
        invariant !found ==> forall h | h in hosts && h !in rest :: hosts[h].identityKey != key
        decreases rest, !found
      {
        var h :| h in rest;
        found := hosts[h].identityKey == key;
        rest := rest - {h};
      }
    }

    /** One enrolment with nothing between its reads and its writes. */
    method Enroll(r: Request, now: int) returns (outcome: Outcome)
      modifies this
      ensures Now() == Undisturbed(old(Now()), old(serial), r, now) && serial == old(serial) + 4
      ensures outcome ==
              if !Usable(old(Now()), r.token, now) then InvalidToken
              else if Passes(old(Now()), r, now) && Inserts(old(Now()), r) then Enrolled(old(serial) + 3)
              else AlreadyEnrolled
    {
      UndisturbedMeans(Now(), serial, r, now);
      hide Undisturbed;
      var n := serial + 3;
      serial := serial + 4;
      if r.token !in tokens || tokens[r.token].usedFor.Some? || tokens[r.token].expires < now {
        return InvalidToken;
      }
      if r.machine.Some? {
        var taken := ActiveHostOf(r.machine.value);
        if taken { return AlreadyEnrolled; }
      }
      if r.prior.Some? && r.prior.value in hosts && hosts[r.prior.value].active {
        return AlreadyEnrolled;
      }
      var used := HostWithKey(r.identityKey);
      if used { return AlreadyEnrolled; }
      hosts := hosts[n := Host(r.identityKey, r.machine, tokens[r.token].accounts, true)];
      tokens := tokens[r.token := tokens[r.token].(usedFor := Some(n))];
      return Enrolled(n);
    }

    method RevokeHost(h: nat, now: int) returns (found: bool)
      modifies this
      ensures Now() == Step(old(Now()), old(serial), Event(now, Revoke(h))) && serial == old(serial) + 1
      ensures found <==> h in old(hosts)
    {
      found := h in hosts;
      if found {
        hosts := hosts[h := hosts[h].(active := false)];
      }
      serial := serial + 1;
    }
  }

  // ---------------------------------------------------------------------------
  // Runs

  ghost function After(es: seq<Event>, n: nat): Tables
    requires n <= |es|
  {
    if n == 0 then Tables(map[], map[], map[]) else Step(After(es, n - 1), n - 1, es[n - 1])
  }

  /** The request that step `n` turns into a host, if it does. */
  ghost function Makes(es: seq<Event>, n: nat): Option<Request>
    requires n < |es|
  {
    var t := After(es, n);
    if es[n].act.Commit? && At(t, es[n].act.start, PriorRead) && Inserts(t, t.pending[es[n].act.start].request)
    then Some(t.pending[es[n].act.start].request) else None
  }

  ghost predicate RevokedBefore(es: seq<Event>, n: nat, h: nat)
    requires n <= |es|
  {
    exists j: nat | h < j < n :: es[j].act == Revoke(h)
  }

  /** Step `n` made a host with token `m`. */
  ghost predicate Spends(es: seq<Event>, n: nat, m: nat)
    requires n < |es|
  {
    Makes(es, n).Some? && Makes(es, n).value.token == m
  }

  ghost predicate SpentBefore(es: seq<Event>, n: nat, m: nat)
    requires n <= |es|
  {
    exists j: nat | j < n :: Spends(es, j, m)
  }

  ghost predicate TokensMean(es: seq<Event>, n: nat)
    requires n <= |es|
  {
    var t := After(es, n);
    && (forall m: nat | m < n && es[m].act.Issue? :: m in t.tokens)
    && (forall m | m in t.tokens ::
          && m < n && es[m].act.Issue?
          && t.tokens[m].accounts == es[m].act.accounts && t.tokens[m].expires == es[m].act.expires
          && (t.tokens[m].usedFor.Some? <==> SpentBefore(es, n, m)))
  }

  ghost predicate HostMeans(es: seq<Event>, n: nat, h: nat, host: Host)
    requires n <= |es|
  {
    && h < n && Makes(es, h).Some?
    && var r := Makes(es, h).value;
       && r.token < h && es[r.token].act.Issue?
       && host.accounts == es[r.token].act.accounts
       && host.identityKey == r.identityKey && host.machine == r.machine
       && (host.active <==> !RevokedBefore(es, n, h))
  }

  ghost predicate HostsMean(es: seq<Event>, n: nat)
    requires n <= |es|
  {
    var t := After(es, n);
    && (forall h: nat | h < n && Makes(es, h).Some? :: h in t.hosts)
    && (forall h | h in t.hosts :: HostMeans(es, n, h, t.hosts[h]))
  }

  /** A pending enrolment passed its reads, each at its own step. */
  ghost predicate PendingMeans(es: seq<Event>, n: nat)
    requires n <= |es|
  {
    var t := After(es, n);
    forall c | c in t.pending ::
      && c < n && es[c].act == ReadToken(t.pending[c].request)
      && Usable(After(es, c), t.pending[c].request.token, es[c].at)
      && (t.pending[c].stage != TokenRead ==> MachinePassed(es, c, n, t.pending[c].request))
      && (t.pending[c].stage == PriorRead ==> PriorPassed(es, c, n, t.pending[c].request))
  }

  ghost predicate MachinePassed(es: seq<Event>, c: nat, n: nat, r: Request)
    requires n <= |es|
  {
    exists k: nat | c < k < n :: es[k].act == ReadMachine(c) && !MachineTaken(After(es, k), r.machine)
  }

  ghost predicate PriorPassed(es: seq<Event>, c: nat, n: nat, r: Request)
    requires n <= |es|
  {
    exists k: nat | c < k < n :: es[k].act == ReadPrior(c) && !PriorActive(After(es, k), r.prior)
  }

  lemma SpentNext(es: seq<Event>, n: nat, m: nat)
    requires n < |es|
    ensures SpentBefore(es, n + 1, m) <==> SpentBefore(es, n, m) || Spends(es, n, m)
  {
    hide Spends;
    assert Spends(es, n, m) ==> SpentBefore(es, n + 1, m);
  }

  lemma RevokedNext(es: seq<Event>, n: nat, h: nat)
    requires h < n < |es|
    ensures RevokedBefore(es, n + 1, h) <==> RevokedBefore(es, n, h) || es[n].act == Revoke(h)
  {
    assert es[n].act == Revoke(h) ==> RevokedBefore(es, n + 1, h);
  }

  /** What one step does to the rows. */
  lemma StepRows(es: seq<Event>, n: nat)
    requires n < |es|
    ensures var t, t', made := After(es, n), After(es, n + 1), Makes(es, n);
            && (made.Some? ==> made.value.token in t.tokens && t' == Inserted(t.(pending := t'.pending), n, made.value))
            && (es[n].act.Issue? ==> t'.tokens == t.tokens[n := Token(es[n].act.accounts, es[n].act.expires, None)])
            && (made.None? && !es[n].act.Issue? ==> t'.tokens == t.tokens)
            && (made.None? && !es[n].act.Revoke? ==> t'.hosts == t.hosts)
            && (es[n].act.Revoke? ==> made.None?)
            && (es[n].act.Issue? ==> made.None?)
  {}

  lemma TokensKeepMeaning(es: seq<Event>, n: nat)
    requires n < |es| && TokensMean(es, n)
    ensures TokensMean(es, n + 1)
  {
    StepRows(es, n);
    hide After, Makes, SpentBefore;
    forall m: nat
      ensures SpentBefore(es, n + 1, m) <==> SpentBefore(es, n, m) || Spends(es, n, m)
    {
      SpentNext(es, n, m);
    }
    if es[n].act.Issue? {
      NotYetSpent(es, n);
    }
  }

  /** A token is spent only after it was issued. */
  lemma {:induction false} NotYetSpent(es: seq<Event>, n: nat)
    requires n < |es| && TokensMean(es, n) && es[n].act.Issue?
    ensures !SpentBefore(es, n, n)
  {
    if j: nat :| j < n && Spends(es, j, n) {
      SpendsIssued(es, j);
    }
  }

  lemma SpendsIssued(es: seq<Event>, j: nat)
    requires j < |es| && Makes(es, j).Some?
    ensures Makes(es, j).value.token < j && es[Makes(es, j).value.token].act.Issue?
  {
    IssuedTokens(es, j, Makes(es, j).value.token);
  }

  lemma {:induction false} IssuedTokens(es: seq<Event>, n: nat, m: nat)
    requires n <= |es| && m in After(es, n).tokens
    ensures m < n && es[m].act.Issue?
  {
    StepRows(es, n - 1);
    hide After, Makes;
    if m in After(es, n - 1).tokens {
      IssuedTokens(es, n - 1, m);
    }
  }

  lemma HostKept(es: seq<Event>, n: nat, h: nat, host: Host)
    requires n < |es| && HostMeans(es, n, h, host)
    ensures HostMeans(es, n + 1, h, host.(active := host.active && es[n].act != Revoke(h)))
  {
    hide Makes, RevokedBefore;
    RevokedNext(es, n, h);
  }

  lemma HostMade(es: seq<Event>, n: nat)
    requires n < |es| && TokensMean(es, n) && Makes(es, n).Some?
    ensures n in After(es, n + 1).hosts && HostMeans(es, n + 1, n, After(es, n + 1).hosts[n])
  {
    StepRows(es, n);
    SpendsIssued(es, n);
    NotYetRevoked(es, n);
    hide After, Makes, RevokedBefore, SpentBefore;
  }

  lemma RevokeHosts(es: seq<Event>, n: nat)
    requires n < |es| && es[n].act.Revoke?
    ensures var t, h := After(es, n), es[n].act.host;
            After(es, n + 1).hosts == if h in t.hosts then t.hosts[h := t.hosts[h].(active := false)] else t.hosts
  {}

  lemma HostsKeepMeaning(es: seq<Event>, n: nat)
    requires n < |es| && HostsMean(es, n) && TokensMean(es, n)
    ensures HostsMean(es, n + 1)
  {
    StepRows(es, n);
    var t, t' := After(es, n), After(es, n + 1);
    if Makes(es, n).Some? {
      HostMade(es, n);
    }
    if es[n].act.Revoke? {
      RevokeHosts(es, n);
    }
    hide After, Makes, HostMeans, TokensMean;
    forall h | h in t.hosts
      ensures HostMeans(es, n + 1, h, t.hosts[h].(active := t.hosts[h].active && es[n].act != Revoke(h)))
    {
      HostKept(es, n, h, t.hosts[h]);
    }
    forall h: nat | h < n + 1 && Makes(es, h).Some?
      ensures h in t'.hosts
    {}
    forall h | h in t'.hosts
      ensures HostMeans(es, n + 1, h, t'.hosts[h])
    {
      if h != n || Makes(es, n).None? {
        assert h in t.hosts;
        assert t'.hosts[h] == t.hosts[h].(active := t.hosts[h].active && es[n].act != Revoke(h));
      }
    }
  }

  lemma NotYetRevoked(es: seq<Event>, n: nat)
    requires n < |es|
    ensures !RevokedBefore(es, n + 1, n)
  {}

  lemma PassedStays(es: seq<Event>, c: nat, n: nat, r: Request)
    requires n < |es|
    ensures MachinePassed(es, c, n, r) ==> MachinePassed(es, c, n + 1, r)
    ensures PriorPassed(es, c, n, r) ==> PriorPassed(es, c, n + 1, r)
  {
    hide MachineTaken, PriorActive;
  }

  lemma PendingKeepsMeaning(es: seq<Event>, n: nat)
    requires n < |es| && PendingMeans(es, n)
    ensures PendingMeans(es, n + 1)
  {
    hide Inserts, MachineTaken, PriorActive, Usable, MachinePassed, PriorPassed;
    var t, t' := After(es, n), After(es, n + 1);
    forall c | c in t'.pending
      ensures c < n + 1 && es[c].act == ReadToken(t'.pending[c].request)
      ensures Usable(After(es, c), t'.pending[c].request.token, es[c].at)
      ensures t'.pending[c].stage != TokenRead ==> MachinePassed(es, c, n + 1, t'.pending[c].request)
      ensures t'.pending[c].stage == PriorRead ==> PriorPassed(es, c, n + 1, t'.pending[c].request)
    {
      if c in t.pending {
        PassedStays(es, c, n, t.pending[c].request);
        ReadPasses(es, n, c);
      }
    }
  }

  /** A read that lets the enrolment on is the one its stage speaks of. */
  lemma ReadPasses(es: seq<Event>, n: nat, c: nat)
    requires n < |es| && c < n && c in After(es, n).pending && c in After(es, n + 1).pending
    ensures var p, p' := After(es, n).pending[c], After(es, n + 1).pending[c];
            && (p'.stage == p.stage || (p.stage == TokenRead && p'.stage == MachineRead)
                || (p.stage == MachineRead && p'.stage == PriorRead))
            && (p.stage == TokenRead && p'.stage == MachineRead ==> MachinePassed(es, c, n + 1, p.request))
            && (p.stage == MachineRead && p'.stage == PriorRead ==> PriorPassed(es, c, n + 1, p.request))
  {
  }

  lemma NothingYet(es: seq<Event>)
    ensures TokensMean(es, 0) && HostsMean(es, 0) && PendingMeans(es, 0)
  {}

  lemma {:induction false} TablesMean(es: seq<Event>, n: nat)
    requires n <= |es|
    ensures TokensMean(es, n) && HostsMean(es, n) && PendingMeans(es, n)
  {
    hide TokensMean, HostsMean, PendingMeans;
    if n == 0 {
      NothingYet(es);
    } else {
      TablesMean(es, n - 1);
      TokensKeepMeaning(es, n - 1);
      HostsKeepMeaning(es, n - 1);
      PendingKeepsMeaning(es, n - 1);
    }
  }

  // ---------------------------------------------------------------------------
  // Results

  /** Every host carries the accounts of the token it was enrolled with, and is active
      exactly until it is revoked: a revoked id never becomes active again. */
  lemma HostIsTokens(es: seq<Event>, n: nat, h: nat)
    requires n <= |es| && h in After(es, n).hosts
    ensures h < n && Makes(es, h).Some?
    ensures var m := Makes(es, h).value.token;
            m < h && es[m].act.Issue? && After(es, n).hosts[h].accounts == es[m].act.accounts
    ensures After(es, n).hosts[h].active <==> !RevokedBefore(es, n, h)
  {
    TablesMean(es, n);
    hide Makes, RevokedBefore;
  }

  lemma RevokedForever(es: seq<Event>, h: nat, j: nat, n: nat)
    requires h < j < n <= |es| && es[j].act == Revoke(h)
    ensures h in After(es, n).hosts ==> !After(es, n).hosts[h].active
  {
    if h in After(es, n).hosts {
      HostIsTokens(es, n, h);
    }
  }

  ghost predicate OneActivePerMachine(t: Tables) {
    forall h, h' | h in t.hosts && h' in t.hosts && t.hosts[h].active && t.hosts[h'].active ::
      t.hosts[h].machine.Some? && t.hosts[h].machine == t.hosts[h'].machine ==> h == h'
  }

  /** However enrolments interleave, a machine has at most one active host. */
  lemma {:induction false} MachineHasOneActiveHost(es: seq<Event>, n: nat)
    requires n <= |es|
    ensures OneActivePerMachine(After(es, n))
  {
    if n > 0 {
      MachineHasOneActiveHost(es, n - 1);
      StepRows(es, n - 1);
      if Makes(es, n - 1).Some? {
        var t, r := After(es, n - 1), Makes(es, n - 1).value;
        assert !MachineTaken(t, r.machine);
        hide After, Makes;
      }
    }
  }

  ghost predicate DistinctKeys(t: Tables) {
    forall h, h' | h in t.hosts && h' in t.hosts && t.hosts[h].identityKey == t.hosts[h'].identityKey :: h == h'
  }

  /** However enrolments interleave, no two hosts, revoked or not, share an identity key. */
  lemma {:induction false} KeyHasOneHost(es: seq<Event>, n: nat)
    requires n <= |es|
    ensures DistinctKeys(After(es, n))
  {
    if n > 0 {
      KeyHasOneHost(es, n - 1);
      StepRows(es, n - 1);
      if Makes(es, n - 1).Some? {
        var t, r := After(es, n - 1), Makes(es, n - 1).value;
        assert !KeyTaken(t, r.identityKey);
        hide After, Makes;
      } else if es[n - 1].act.Revoke? {
        RevokeHosts(es, n - 1);
        hide After, Makes;
      }
    }
  }

  lemma CommittedFrom(es: seq<Event>, j: nat)
    requires j < |es| && Makes(es, j).Some?
    ensures var c, r := es[j].act.start, Makes(es, j).value;
            && c < j && es[c].act == ReadToken(r) && Usable(After(es, c), r.token, es[c].at)
            && MachinePassed(es, c, j, r) && PriorPassed(es, c, j, r)
  {
    TablesMean(es, j);
    hide TokensMean, HostsMean, Usable, MachinePassed, PriorPassed;
  }

  lemma SpentIsRefused(es: seq<Event>, i: nat, c: nat, m: nat, now: int)
    requires i < c <= |es| && Spends(es, i, m)
    ensures !Usable(After(es, c), m, now)
  {
    TablesMean(es, c);
    assert SpentBefore(es, c, m);
    hide Makes, RevokedBefore;
  }

  /** Two hosts come from one token only when their enrolments overlap: the second read
      the token before the first was written. */
  lemma SharedTokenOverlaps(es: seq<Event>, i: nat, j: nat, m: nat)
    requires i < j < |es| && Spends(es, i, m) && Spends(es, j, m)
    ensures es[j].act.start < i
  {
    CommittedFrom(es, j);
    var c := es[j].act.start;
    hide Makes, Usable;
    if i < c {
      SpentIsRefused(es, i, c, m, es[c].at);
    }
  }

  /** The step belongs to the enrolment whose token read was step `c`. */
  predicate Continues(act: Act, c: nat) {
    act == ReadMachine(c) || act == ReadPrior(c) || act == Commit(c)
  }

  /** Steps c, m, p and j are the reads and the writes of one enrolment. */
  ghost predicate Course(es: seq<Event>, c: nat, m: nat, p: nat, j: nat)
    requires j < |es|
  {
    && c < m < p < j
    && es[c].act.ReadToken? && es[m].act == ReadMachine(c) && es[p].act == ReadPrior(c) && es[j].act == Commit(c)
    && forall k | c < k < j && Continues(es[k].act, c) :: k == m || k == p
  }

  /** While none of its steps is taken, an enrolment waits as it is. */
  lemma {:induction false} Waits(es: seq<Event>, c: nat, n: nat, n': nat)
    requires c < n <= n' <= |es| && forall k | n <= k < n' :: !Continues(es[k].act, c)
    ensures c in After(es, n').pending <==> c in After(es, n).pending
    ensures c in After(es, n).pending ==> After(es, n').pending[c] == After(es, n).pending[c]
    decreases n'
  {
    if n < n' {
      Waits(es, c, n, n' - 1);
      assert !Continues(es[n' - 1].act, c);
      hide Usable, MachineTaken, PriorActive, Inserts;
    }
  }

  /** What the reads of an enrolment see lets it through, each at the time it is made. */
  ghost predicate Reads(es: seq<Event>, c: nat, m: nat, p: nat)
    requires c < |es| && m < |es| && p < |es| && es[c].act.ReadToken?
  {
    var r := es[c].act.request;
    && Usable(After(es, c), r.token, es[c].at)
    && !MachineTaken(After(es, m), r.machine)
    && !PriorActive(After(es, p), r.prior)
  }

  /** An enrolment reaches its writes exactly when its reads let it through. */
  lemma ReachesWrites(es: seq<Event>, c: nat, m: nat, p: nat, j: nat)
    requires j < |es| && Course(es, c, m, p, j)
    ensures At(After(es, j), c, PriorRead) <==> Reads(es, c, m, p)
    ensures Reads(es, c, m, p) ==> After(es, j).pending[c].request == es[c].act.request
  {
    hide Usable, MachineTaken, PriorActive, Inserts, After;
    TokenStep(es, c);
    Waits(es, c, c + 1, m);
    MachineStep(es, m, c);
    Waits(es, c, m + 1, p);
    PriorStep(es, p, c);
    Waits(es, c, p + 1, j);
  }

  lemma TokenStep(es: seq<Event>, c: nat)
    requires c < |es| && es[c].act.ReadToken?
    ensures c in After(es, c + 1).pending <==> Usable(After(es, c), es[c].act.request.token, es[c].at)
    ensures c in After(es, c + 1).pending ==> After(es, c + 1).pending[c] == Pending(es[c].act.request, TokenRead)
  {
    TablesMean(es, c);
    hide Usable, TokensMean, HostsMean, MachinePassed, PriorPassed;
  }

  lemma MachineStep(es: seq<Event>, m: nat, c: nat)
    requires m < |es| && es[m].act == ReadMachine(c)
    ensures var t, t' := After(es, m), After(es, m + 1);
            && (At(t, c, TokenRead) ==>
                  (At(t', c, MachineRead) <==> !MachineTaken(t, t.pending[c].request.machine))
                  && (c in t'.pending ==> At(t', c, MachineRead)))
            && (c in t'.pending ==> c in t.pending && t'.pending[c].request == t.pending[c].request)
            && (!At(t, c, TokenRead) ==> t' == t)
  {
    hide MachineTaken;
  }

  lemma PriorStep(es: seq<Event>, p: nat, c: nat)
    requires p < |es| && es[p].act == ReadPrior(c)
    ensures var t, t' := After(es, p), After(es, p + 1);
            && (At(t, c, MachineRead) ==>
                  (At(t', c, PriorRead) <==> !PriorActive(t, t.pending[c].request.prior)))
            && (c in t'.pending ==> c in t.pending && t'.pending[c].request == t.pending[c].request)
            && (!At(t, c, MachineRead) ==> t' == t)
  {
    hide PriorActive;
  }

  /** Once a token has made a host, another enrolment with it makes one exactly when it read
      the token before, its reads let it through, and the unique indexes let it in. */
  lemma SecondHostIff(es: seq<Event>, i: nat, c: nat, m: nat, p: nat, j: nat)
    requires i < j < |es| && Course(es, c, m, p, j) && Spends(es, i, es[c].act.request.token)
    ensures Makes(es, j).Some? <==> c < i && Reads(es, c, m, p) && Inserts(After(es, j), es[c].act.request)
  {
    hide Inserts, After, Reads;
    ReachesWrites(es, c, m, p, j);
    if Makes(es, j).Some? {
      CommittedFrom(es, j);
      SharedTokenOverlaps(es, i, j, es[c].act.request.token);
    }
  }

  /** Each enrolment runs its four steps in a row. */
  ghost predicate Serialized(es: seq<Event>) {
    forall i: nat | i < |es| && es[i].act.Commit? ::
      es[i].act.start + 3 == i && es[i - 2].act == ReadMachine(i - 3) && es[i - 1].act == ReadPrior(i - 3)
  }

  /** Enrolled one at a time, a token makes at most one host. */
  lemma TokenMakesOneHost(es: seq<Event>, i: nat, j: nat, m: nat)
    requires Serialized(es) && i < |es| && j < |es| && Spends(es, i, m) && Spends(es, j, m)
    ensures i == j
  {
    if i < j {
      SharedTokenOverlaps(es, i, j, m);
    } else if j < i {
      SharedTokenOverlaps(es, j, i, m);
    }
  }

  /** The reads let a request through exactly when its token was issued, has not expired and
      has made no host, and its machine and prior host are not active. */
  lemma PassesIff(es: seq<Event>, n: nat, r: Request, now: int)
    requires n <= |es|
    ensures Passes(After(es, n), r, now) <==>
            && r.token < n && es[r.token].act.Issue?
            && now <= es[r.token].act.expires
            && !SpentBefore(es, n, r.token)
            && (r.machine.Some? ==>
                  forall h: nat | h < n && Makes(es, h).Some? && Makes(es, h).value.machine == r.machine ::
                    RevokedBefore(es, n, h))
            && (r.prior.Some? && r.prior.value < n && Makes(es, r.prior.value).Some? ==>
                  RevokedBefore(es, n, r.prior.value))
  {
    TablesMean(es, n);
    hide After, Makes, RevokedBefore, SpentBefore;
  }

  /** The unique indexes admit a request exactly when its token was issued, no host ever had its
      key, and every host of its machine has been revoked. */
  lemma InsertsIff(es: seq<Event>, n: nat, r: Request)
    requires n <= |es|
    ensures Inserts(After(es, n), r) <==>
            && r.token < n && es[r.token].act.Issue?
            && (forall h: nat | h < n && Makes(es, h).Some? :: Makes(es, h).value.identityKey != r.identityKey)
            && (r.machine.Some? ==>
                  forall h: nat | h < n && Makes(es, h).Some? && Makes(es, h).value.machine == r.machine ::
                    RevokedBefore(es, n, h))
  {
    TablesMean(es, n);
    hide After, Makes, RevokedBefore, SpentBefore;
  }

  /** Revoking the host that holds a machine frees the machine: a request with a usable
      token and a new key is then enrolled. */
  lemma RevocationFreesMachine(es: seq<Event>, n: nat, h: nat, r: Request, now: int)
    requires n < |es| && es[n].act == Revoke(h)
    requires h in After(es, n).hosts && After(es, n).hosts[h].active && After(es, n).hosts[h].machine == r.machine
    requires r.machine.Some? && (r.prior == None || r.prior == Some(h))
    requires Usable(After(es, n), r.token, now) && !KeyTaken(After(es, n), r.identityKey)
    ensures Passes(After(es, n + 1), r, now) && Inserts(After(es, n + 1), r)
  {
    MachineHasOneActiveHost(es, n);
    var t, t' := After(es, n), After(es, n + 1);
    assert t'.hosts == t.hosts[h := t.hosts[h].(active := false)] && t'.tokens == t.tokens;
    hide After;
  }

  /** One token, two machines, both reading it before either is written. */
  function Overlapping(accounts: Accounts): seq<Event> {
    [Event(0, Issue(accounts, 10)),
     Event(1, ReadToken(Request(0, "a", Some("x"), None))),
     Event(1, ReadToken(Request(0, "b", Some("y"), None))),
     Event(1, ReadMachine(1)), Event(1, ReadPrior(1)),
     Event(1, ReadMachine(2)), Event(1, ReadPrior(2)),
     Event(2, Commit(1)),
     Event(2, Commit(2))]
  }

  lemma OverlappingSharesToken(accounts: Accounts)
    ensures Spends(Overlapping(accounts), 7, 0) && Spends(Overlapping(accounts), 8, 0)
  {
    var es := Overlapping(accounts);
    var r1, r2 := Request(0, "a", Some("x"), None), Request(0, "b", Some("y"), None);
    BothReadToken(accounts);
    var t7 := After(es, 7);
    assert Inserts(t7, r1);
    var t8 := After(es, 8);
    assert t8 == Step(t7, 7, es[7]);
    assert t8.hosts == map[7 := Host("a", Some("x"), accounts, true)] && 0 in t8.tokens && At(t8, 2, PriorRead);
    hide After, Step;
    assert Inserts(t8, r2);
  }

  lemma BothReadToken(accounts: Accounts)
    ensures After(Overlapping(accounts), 7) ==
            Tables(map[], map[0 := Token(accounts, 10, None)],
                   map[1 := Pending(Request(0, "a", Some("x"), None), PriorRead),
                       2 := Pending(Request(0, "b", Some("y"), None), PriorRead)])
  {
    var es := Overlapping(accounts);
    var r1, r2 := Request(0, "a", Some("x"), None), Request(0, "b", Some("y"), None);
    var t1 := Tables(map[], map[0 := Token(accounts, 10, None)], map[]);
    assert After(es, 1) == t1 by { assert After(es, 0) == Tables(map[], map[], map[]); }
    assert After(es, 2) == t1.(pending := map[1 := Pending(r1, TokenRead)]);
    assert After(es, 3) == t1.(pending := map[1 := Pending(r1, TokenRead), 2 := Pending(r2, TokenRead)]);
    assert After(es, 4) == t1.(pending := map[1 := Pending(r1, MachineRead), 2 := Pending(r2, TokenRead)]);
    assert After(es, 5) == t1.(pending := map[1 := Pending(r1, PriorRead), 2 := Pending(r2, TokenRead)]);
    assert After(es, 6) == t1.(pending := map[1 := Pending(r1, PriorRead), 2 := Pending(r2, MachineRead)]);
  }
}
