/** Machine secret sets: which hosts a mutation re-pushes, and the daemon's in-memory
    store (internal/controlplane/secret_sets.go, internal/daemon/secretstore.go). */
module SecretSets {
  import opened Wire
  import opened Register
  import opened Replication
  import Schedules

  /** `version` stands for updated_at; `values` for the opened entries. */
  datatype SetRow = SetRow(name: string, version: nat, values: map<string, string>)

  /** `bindings` maps (host, set) to as_user; `hosts` tells whether a host has
      registered an encryption key. */
  datatype SetTables = SetTables(
    sets: map<Uuid, SetRow>,
    bindings: map<(Uuid, Uuid), string>,
    hosts: map<Uuid, bool>)

  ghost predicate ValidSets(t: SetTables) {
    && (forall b | b in t.bindings :: b.0 in t.hosts && b.1 in t.sets)
    && (forall s, s' | s in t.sets && s' in t.sets && t.sets[s].name == t.sets[s'].name :: s == s')
  }

  datatype SecretSet = SecretSet(name: string, asUser: string, version: nat, values: map<string, string>)

  /** buildSecretSets: the cleartext bundle of a host. */
  function Bundle(t: SetTables, host: Uuid): set<SecretSet> {
    set b | b in t.bindings && b.0 == host && b.1 in t.sets ::
      SecretSet(t.sets[b.1].name, t.bindings[b], t.sets[b.1].version, t.sets[b.1].values)
  }

  function HostsForSet(t: SetTables, id: Uuid): set<Uuid> {
    set b | b in t.bindings && b.1 == id :: b.0
  }

  datatype Mutation =
    | Rename(id: Uuid, name: string, now: nat)
    | UpsertEntry(id: Uuid, key: string, value: string, now: nat)
    | DeleteEntry(id: Uuid, key: string, now: nat)
    | DeleteSet(id: Uuid)
    | Bind(host: Uuid, id: Uuid, asUser: string)
    | Unbind(host: Uuid, id: Uuid)

  datatype SetEffect = SetEffect(tables: SetTables, pushed: set<Uuid>)

  predicate NameTaken(t: SetTables, id: Uuid, name: string) {
    exists s :: s in t.sets && s != id && t.sets[s].name == name
  }

  function WithRow(t: SetTables, id: Uuid, row: SetRow): SetTables {
    t.(sets := t.sets[id := row])
  }

  /** The committed tables and the hosts pushSecretSets is then called on; a refused
      mutation changes and pushes nothing. */
  function Mutate(t: SetTables, m: Mutation): SetEffect {
    match m
    case Rename(id, name, now) =>
      if name == "" || id !in t.sets || NameTaken(t, id, name) then SetEffect(t, {})
      else SetEffect(WithRow(t, id, t.sets[id].(name := name, version := now)), HostsForSet(t, id))
    case UpsertEntry(id, key, value, now) =>
      if key == "" || id !in t.sets then SetEffect(t, {})
      else
        var row := t.sets[id];
        SetEffect(WithRow(t, id, row.(values := row.values[key := value], version := now)), HostsForSet(t, id))
    case DeleteEntry(id, key, now) =>
      if id !in t.sets || key !in t.sets[id].values then SetEffect(t, {})
      else
        var row := t.sets[id];
        SetEffect(WithRow(t, id, row.(values := row.values - {key}, version := now)), HostsForSet(t, id))
    case DeleteSet(id) =>
      if id !in t.sets then SetEffect(t, {})
      else
        var bindings := map b | b in t.bindings && b.1 != id :: t.bindings[b];
        SetEffect(t.(sets := t.sets - {id}, bindings := bindings), HostsForSet(t, id))
    case Bind(host, id, asUser) =>
      if id !in t.sets || host !in t.hosts then SetEffect(t, {})
      else SetEffect(t.(bindings := t.bindings[(host, id) := asUser]), {host})
    case Unbind(host, id) =>
      if (host, id) !in t.bindings then SetEffect(t, {})
      else SetEffect(t.(bindings := t.bindings - {(host, id)}), {host})
  }

  lemma MutateKeepsValid(t: SetTables, m: Mutation)
    requires ValidSets(t)
    ensures ValidSets(Mutate(t, m).tables) && Mutate(t, m).tables.hosts == t.hosts
  {
  }

  /** The bundle's row for one binding. */
  lemma InBundle(t: SetTables, b: (Uuid, Uuid))
    requires b in t.bindings && b.1 in t.sets
    ensures SecretSet(t.sets[b.1].name, t.bindings[b], t.sets[b.1].version, t.sets[b.1].values) in Bundle(t, b.0)
  {
  }

  lemma BundleWithin(t: SetTables, t': SetTables, host: Uuid)
    requires forall b | b in t.bindings && b.0 == host && b.1 in t.sets ::
               b in t'.bindings && b.1 in t'.sets && t'.bindings[b] == t.bindings[b] && t'.sets[b.1] == t.sets[b.1]
    ensures Bundle(t, host) <= Bundle(t', host)
  {
    forall x | x in Bundle(t, host)
      ensures x in Bundle(t', host)
    {
      var b :| b in t.bindings && b.0 == host && b.1 in t.sets
               && x == SecretSet(t.sets[b.1].name, t.bindings[b], t.sets[b.1].version, t.sets[b.1].values);
      InBundle(t', b);
    }
  }

  /** Every host whose bundle a mutation changed is among the hosts it pushes. */
  lemma ChangedBundlesArePushed(t: SetTables, m: Mutation, host: Uuid)
    ensures Bundle(Mutate(t, m).tables, host) != Bundle(t, host) ==> host in Mutate(t, m).pushed
  {
    var t' := Mutate(t, m).tables;
    if host !in Mutate(t, m).pushed {
      BundleWithin(t, t', host) by {
        forall b | b in t.bindings && b.0 == host && b.1 in t.sets
          ensures b in t'.bindings && b.1 in t'.sets && t'.bindings[b] == t.bindings[b] && t'.sets[b.1] == t.sets[b.1]
        {
          UnpushedBinding(t, m, b);
        }
      }
      BundleWithin(t', t, host);
    }
  }

  lemma UnpushedBinding(t: SetTables, m: Mutation, b: (Uuid, Uuid))
    requires b in t.bindings && b.1 in t.sets && b.0 !in Mutate(t, m).pushed
    ensures var t' := Mutate(t, m).tables;
            b in t'.bindings && b.1 in t'.sets && t'.bindings[b] == t.bindings[b] && t'.sets[b.1] == t.sets[b.1]
  {
    if m.Rename? || m.UpsertEntry? || m.DeleteEntry? || m.DeleteSet? {
      assert b.1 == m.id && m.id in t.sets ==> b.0 in HostsForSet(t, m.id);
    }
  }

  // ---------------------------------------------------------------------------
  // Serialized mutations keep the last stamped bundle current

  /** The tables, and per host with a key the bundles stamped so far: the bundle
      numbered k is the k-th. */
  datatype SetServer = SetServer(tables: SetTables, stamped: map<Uuid, seq<set<SecretSet>>>)

  datatype SetEvent = Changed(mutation: Mutation) | Connected(host: Uuid)

  /** pushSecretSets on each listed host that exists and has a key. */
  function PushSets(s: SetServer, hosts: set<Uuid>): SetServer {
    s.(stamped := map h | h in s.tables.hosts ::
         var before := if h in s.stamped then s.stamped[h] else [];
         if h in hosts && s.tables.hosts[h] then before + [Bundle(s.tables, h)] else before)
  }

  lemma PushSetsNone(s: SetServer)
    requires s.stamped.Keys == s.tables.hosts.Keys
    ensures PushSets(s, {}) == s
  {
    assert PushSets(s, {}).stamped == s.stamped;
  }

  lemma PushSetsMore(s: SetServer, done: set<Uuid>, h: Uuid)
    requires h !in done && s.stamped.Keys == s.tables.hosts.Keys
    ensures var s1 := PushSets(s, done);
            PushSets(s, done + {h}) ==
            if h in s.tables.hosts && s.tables.hosts[h]
            then s1.(stamped := s1.stamped[h := s1.stamped[h] + [Bundle(s.tables, h)]]) else s1
  {
    hide Bundle;
    var s1 := PushSets(s, done);
    if h in s.tables.hosts && s.tables.hosts[h] {
      assert PushSets(s, done + {h}).stamped == s1.stamped[h := s1.stamped[h] + [Bundle(s.tables, h)]];
    } else {
      assert PushSets(s, done + {h}).stamped == s1.stamped;
    }
  }

  /** The handlers: commit a mutation, then build, seal, stamp and push host by host. */
  class SetHandlers {
    var tables: SetTables
    var stamped: map<Uuid, seq<set<SecretSet>>>

    function Now(): SetServer
      reads this
    {
      SetServer(tables, stamped)
    }

    constructor (tables: SetTables)
      ensures Now() == SetServer(tables, map h | h in tables.hosts :: [])
    {
      this.tables := tables;
      this.stamped := map h | h in tables.hosts :: [];
    }

    method PushAllSets(hosts: set<Uuid>)
      requires stamped.Keys == tables.hosts.Keys
      modifies this`stamped
      ensures Now() == PushSets(old(Now()), hosts)
    {
      hide Bundle, PushSets;
      var left, done := hosts, {};
      PushSetsNone(Now());
      while left != {}
        invariant done !! left && done + left == hosts
        invariant Now() == PushSets(old(Now()), done) && stamped.Keys == tables.hosts.Keys
        decreases |left|
      {
        var h :| h in left;
        PushSetsMore(old(Now()), done, h);
        left, done := left - {h}, done + {h};
        if h in tables.hosts && tables.hosts[h] {
          stamped := stamped[h := stamped[h] + [Bundle(tables, h)]];
        }
      }
    }

    method Change(m: Mutation)
      requires ValidSets(tables) && stamped.Keys == tables.hosts.Keys
      modifies this
      ensures ValidSets(tables) && stamped.Keys == tables.hosts.Keys
      ensures Now() == Next(old(Now()), Changed(m))
    {
      MutateKeepsValid(tables, m);
      var effect := Mutate(tables, m);
      tables := effect.tables;
      PushAllSets(effect.pushed);
    }

    method Connect(host: Uuid)
      requires stamped.Keys == tables.hosts.Keys
      modifies this`stamped
      ensures stamped.Keys == tables.hosts.Keys
      ensures Now() == Next(old(Now()), Connected(host))
    {
      PushAllSets({host});
    }
  }

  function Next(s: SetServer, e: SetEvent): SetServer {
    match e
    case Changed(m) => PushSets(s.(tables := Mutate(s.tables, m).tables), Mutate(s.tables, m).pushed)
    case Connected(h) => PushSets(s, {h})
  }

  function NextAll(s: SetServer, es: seq<SetEvent>): SetServer {
    if es == [] then s else Next(NextAll(s, es[..|es| - 1]), es[|es| - 1])
  }

  /** The newest bundle stamped for the host is its current one. */
  predicate NewestIsCurrent(s: SetServer, host: Uuid) {
    && host in s.stamped && s.stamped[host] != []
    && s.stamped[host][|s.stamped[host]| - 1] == Bundle(s.tables, host)
  }

  lemma NextKeepsCurrent(s: SetServer, e: SetEvent, host: Uuid)
    requires ValidSets(s.tables) && host in s.tables.hosts && s.tables.hosts[host]
    requires NewestIsCurrent(s, host) || e == Connected(host)
    ensures ValidSets(Next(s, e).tables) && Next(s, e).tables.hosts == s.tables.hosts
    ensures NewestIsCurrent(Next(s, e), host)
  {
    if e.Changed? {
      MutateKeepsValid(s.tables, e.mutation);
      ChangedBundlesArePushed(s.tables, e.mutation, host);
    }
  }

  /** Over every serialized run, a host with an encryption key that is current stays
      current: each mutation that changes its bundle stamps the new one. */
  lemma {:induction false} NewestStaysCurrent(s: SetServer, es: seq<SetEvent>, host: Uuid)
    requires ValidSets(s.tables) && host in s.tables.hosts && s.tables.hosts[host]
    requires NewestIsCurrent(s, host)
    ensures ValidSets(NextAll(s, es).tables) && NextAll(s, es).tables.hosts == s.tables.hosts
    ensures NewestIsCurrent(NextAll(s, es), host)
  {
    if es != [] {
      NewestStaysCurrent(s, es[..|es| - 1], host);
      NextKeepsCurrent(NextAll(s, es[..|es| - 1]), es[|es| - 1], host);
    }
  }

  lemma NextKeepsValid(s: SetServer, e: SetEvent)
    requires ValidSets(s.tables)
    ensures ValidSets(Next(s, e).tables) && Next(s, e).tables.hosts == s.tables.hosts
  {
    if e.Changed? {
      MutateKeepsValid(s.tables, e.mutation);
    }
  }

  lemma {:induction false} NextAllKeepsValid(s: SetServer, es: seq<SetEvent>)
    requires ValidSets(s.tables)
    ensures ValidSets(NextAll(s, es).tables) && NextAll(s, es).tables.hosts == s.tables.hosts
  {
    if es != [] {
      NextAllKeepsValid(s, es[..|es| - 1]);
      NextKeepsValid(NextAll(s, es[..|es| - 1]), es[|es| - 1]);
    }
  }

  /** A host that registered no encryption key is never sent a bundle. */
  lemma {:induction false} KeylessGetsNothing(s: SetServer, es: seq<SetEvent>, host: Uuid)
    requires ValidSets(s.tables) && host in s.tables.hosts && !s.tables.hosts[host]
    requires host in s.stamped && s.stamped[host] == []
    ensures var s' := NextAll(s, es); host in s'.stamped && s'.stamped[host] == []
  {
    if es != [] {
      KeylessGetsNothing(s, es[..|es| - 1], host);
      NextAllKeepsValid(s, es[..|es| - 1]);
      NextKeepsValid(NextAll(s, es[..|es| - 1]), es[|es| - 1]);
      hide ValidSets, Bundle;
    }
  }

  /** From any start, a host that connects anywhere in a serialized run ends it current. */
  lemma {:induction false} ConnectedEndsCurrent(s: SetServer, es: seq<SetEvent>, k: nat, host: Uuid)
    requires ValidSets(s.tables) && host in s.tables.hosts && s.tables.hosts[host]
    requires k < |es| && es[k] == Connected(host)
    ensures NewestIsCurrent(NextAll(s, es), host)
  {
    hide NewestIsCurrent, ValidSets;
    var init := es[..|es| - 1];
    NextAllKeepsValid(s, init);
    if k < |init| {
      ConnectedEndsCurrent(s, init, k, host);
    }
    NextKeepsCurrent(NextAll(s, init), es[|es| - 1], host);
  }

  // ---------------------------------------------------------------------------
  // The daemon's store

  type Opened = map<string, SecretSet>

  /** Parsing and opening of a sealed payload with the daemon's key. */
  type Opener = Bytes -> Option<seq<SecretSet>>

  function ByName(sets: seq<SecretSet>): Opened {
    if sets == [] then map[]
    else
      var last := sets[|sets| - 1];
      ByName(sets[..|sets| - 1])[last.name := last]
  }

  lemma {:induction false} ByNameDomain(sets: seq<SecretSet>)
    ensures forall x | x in sets :: x.name in ByName(sets)
    ensures forall n | n in ByName(sets) :: ByName(sets)[n] in sets && ByName(sets)[n].name == n
  {
    if sets != [] {
      var init, last := sets[..|sets| - 1], sets[|sets| - 1];
      assert sets == init + [last];
      ByNameDomain(init);
    }
  }

  /** However sets with different names are listed, each is found under its name, and no other. */
  lemma OpenedIsListed(sets: seq<SecretSet>, x: SecretSet)
    requires forall y, z | y in Elements(sets) && z in Elements(sets) && y.name == z.name :: y == z
    ensures x in Elements(sets) <==> x.name in ByName(sets) && ByName(sets)[x.name] == x
  {
    ByNameDomain(sets);
    if x.name in ByName(sets) {
      assert ByName(sets)[x.name] in Elements(sets);
    }
  }

  /** However the bundle is listed, the opened store answers each name with the set
      bound under it, and no other name. */
  lemma OpenedIsBundle(t: SetTables, host: Uuid, sets: seq<SecretSet>, x: SecretSet)
    requires ValidSets(t) && Elements(sets) == Bundle(t, host)
    ensures x in Bundle(t, host) <==> x.name in ByName(sets) && ByName(sets)[x.name] == x
  {
    OpenedIsListed(sets, x);
  }

  datatype Store = Store(cell: Cell<Opened>, ready: bool)

  function Unsealed(open: Opener, data: Bytes): Option<Opened> {
    match open(data)
    case None => None
    case Some(sets) => Some(ByName(sets))
  }

  /** dispatch of a verified secret-sets envelope. */
  function Receive(open: Opener, s: Store, number: nat, data: Bytes): Store {
    if number != 0 && number <= s.cell.number then s
    else
      match Unsealed(open, data)
      case None => s
      case Some(sets) => Store(Cell(number, sets), true)
  }

  class SecretStore {
    var number: nat
    var ready: bool
    var sets: Opened
    const open: Opener

    function Now(): Store
      reads this
    {
      Store(Cell(number, sets), ready)
    }

    constructor (open: Opener)
      ensures this.open == open && Now() == Store(Cell(0, map[]), false)
    {
      this.open := open;
      number, ready, sets := 0, false, map[];
    }

    /** Opens the bundle and replaces everything; a bundle that does not open changes nothing. */
    method Apply(data: Bytes, number: nat) returns (ok: bool)
      modifies this
      ensures ok <==> open(data).Some?
      ensures ok ==> Now() == Store(Cell(number, ByName(open(data).value)), true)
      ensures !ok ==> Now() == old(Now())
    {
      var bundle := open(data);
      if bundle.None? { return false; }
      var filled: Opened := map[];
      var list := bundle.value;
      for i := 0 to |list|
        invariant filled == ByName(list[..i])
      {
        assert list[..i + 1][..i] == list[..i];
        filled := filled[list[i].name := list[i]];
      }
      assert list[..|list|] == list;
      sets, this.number, ready := filled, number, true;
      return true;
    }

    method Dispatch(env: Envelope, authentic: bool)
      modifies this
      ensures Now() == if authentic then Receive(open, old(Now()), env.number, env.data) else old(Now())
    {
      if authentic && !(env.number != 0 && env.number <= number) {
        var ok := Apply(env.data, env.number);
      }
    }

    method Get(name: string) returns (found: Option<SecretSet>)
      ensures found == if name in Now().cell.value then Some(Now().cell.value[name]) else None
    {
      found := if name in sets then Some(sets[name]) else None;
    }
  }

  /** verifySecretSets with a stored signing key. */
  ghost predicate VerifiesSets(stamps: set<Stamp>, host: Uuid, env: Envelope) {
    var input := SigningInput(SecretSetsKind, host, env.number, env.data);
    env.signedOver == Some(input) && Signed(stamps, input)
  }

  lemma VerifiedSetsAreStamped(parse: Parser, c: Server, host: Uuid, env: Envelope)
    requires ServerOk(parse, c) && VerifiesSets(c.stamps, host, env)
    ensures Stamp(SecretSetsKind, host, env.number, env.data) in c.stamps
  {
    var input := SigningInput(SecretSetsKind, host, env.number, env.data);
    var s :| s in c.stamps && input == SigningInput(s.kind, s.host, s.number, s.data);
    assert StampNumberOk(c, s);
    SigningInputInjective(SecretSetsKind, host, env.number, env.data, s.kind, s.host, s.number, s.data);
  }

  ghost function ReceiveAll(open: Opener, stamps: set<Stamp>, host: Uuid, s: Store, envs: seq<Envelope>): Store {
    if envs == [] then s
    else
      var s1, env := ReceiveAll(open, stamps, host, s, envs[..|envs| - 1]), envs[|envs| - 1];
      if VerifiesSets(stamps, host, env) then Receive(open, s1, env.number, env.data) else s1
  }

  /** The verified envelopes that open, as messages. */
  ghost function OpenedMessages(open: Opener, stamps: set<Stamp>, host: Uuid, envs: seq<Envelope>): set<Message<Opened>>
  {
    set e | e in envs && VerifiesSets(stamps, host, e) && Unsealed(open, e.data).Some? ::
      Message(e.number, Unsealed(open, e.data))
  }

  /** Within a process life, from an empty store, whatever envelopes arrive in
      whatever order: the store holds exactly the highest-numbered bundle that
      verifies and opens, and it is ready exactly when there is one. */
  lemma {:induction false} StoreHoldsHighestOpened(
    open: Opener, parse: Parser, c: Server, host: Uuid, envs: seq<Envelope>)
    requires ServerOk(parse, c)
    ensures var s := ReceiveAll(open, c.stamps, host, Store(Cell(0, map[]), false), envs);
            var ms := OpenedMessages(open, c.stamps, host, envs);
            && IsHighest(Cell(0, map[]), ms, s.cell)
            && (s.ready <==> ms != {})
  {
    if envs != [] {
      var init, env := envs[..|envs| - 1], envs[|envs| - 1];
      assert envs == init + [env];
      StoreHoldsHighestOpened(open, parse, c, host, init);
      OneMoreEnvelope(open, c.stamps, host, init, env);
      if VerifiesSets(c.stamps, host, env) {
        VerifiedSetsAreStamped(parse, c, host, env);
        assert StampNumberOk(c, Stamp(SecretSetsKind, host, env.number, env.data));
        ReceiveKeepsHighest(open, ReceiveAll(open, c.stamps, host, Store(Cell(0, map[]), false), init),
                            OpenedMessages(open, c.stamps, host, init), env.number, env.data);
      }
      hide ServerOk, VerifiesSets, Unsealed, IsHighest, Receive, OpenedMessages;
    }
  }

  lemma ReceiveKeepsHighest(open: Opener, s: Store, ms: set<Message<Opened>>, number: nat, data: Bytes)
    requires number >= 1 && IsHighest(Cell(0, map[]), ms, s.cell) && (s.ready <==> ms != {})
    requires forall m | m in ms :: m.content.Some?
    ensures var s' := Receive(open, s, number, data);
            var ms' := ms + if Unsealed(open, data).Some? then {Message(number, Unsealed(open, data))} else {};
            IsHighest(Cell(0, map[]), ms', s'.cell) && (s'.ready <==> ms' != {})
  {
    hide Unsealed;
  }

  lemma OneMoreEnvelope(open: Opener, stamps: set<Stamp>, host: Uuid, init: seq<Envelope>, env: Envelope)
    ensures OpenedMessages(open, stamps, host, init + [env]) ==
            OpenedMessages(open, stamps, host, init)
            + if VerifiesSets(stamps, host, env) && Unsealed(open, env.data).Some?
              then {Message(env.number, Unsealed(open, env.data))} else {}
  {
    hide VerifiesSets, Unsealed;
    assert forall e | e in init + [env] :: e in init || e == env;
    assert forall e | e in init :: e in init + [env];
    assert (init + [env])[|init|] == env;
  }

  // ---------------------------------------------------------------------------
  // From the tables to the store

  /** The document opens, with the host's key, to a listing of the bundle. */
  ghost predicate Seals(open: Opener, data: Bytes, bundle: set<SecretSet>) {
    open(data).Some? && Elements(open(data).value) == bundle
  }

  ghost predicate CarriesNumber(open: Opener, c: Server, host: Uuid, number: nat, bundle: set<SecretSet>) {
    exists data :: Stamp(SecretSetsKind, host, number, data) in c.stamps && Seals(open, data, bundle)
  }

  /** The stamps of the signing key are the bundles stamped for the host. */
  ghost predicate Carries(open: Opener, c: Server, s: SetServer, host: Uuid) {
    && host in s.stamped && host in c.lastSetSeq && c.lastSetSeq[host] == |s.stamped[host]|
    && forall k | 0 <= k < |s.stamped[host]| :: CarriesNumber(open, c, host, k + 1, s.stamped[host][k])
  }

  /** secretSetsEnvelope of the current bundle keeps the two in step, for the host it is
      made for and for every other. */
  lemma StampCarries(parse: Parser, open: Opener, c: Server, s: SetServer, pushed: Uuid, data: Bytes, host: Uuid)
    requires c.past != [] && s.stamped.Keys == s.tables.hosts.Keys && Carries(open, c, s, host)
    requires pushed in s.tables.hosts && s.tables.hosts[pushed]
    requires pushed in c.lastSetSeq && c.lastSetSeq[pushed] < BIGINT_MAX
    requires pushed == host ==> Seals(open, data, Bundle(s.tables, host))
    ensures Carries(open, Serve(parse, c, StampSecretSets(pushed, data)), PushSets(s, {pushed}), host)
  {
    var c', s' := Serve(parse, c, StampSecretSets(pushed, data)), PushSets(s, {pushed});
    hide Seals, Bundle;
    forall k | 0 <= k < |s'.stamped[host]|
      ensures CarriesNumber(open, c', host, k + 1, s'.stamped[host][k])
    {
      if k < |s.stamped[host]| {
        assert CarriesNumber(open, c, host, k + 1, s.stamped[host][k]);
      } else {
        assert Stamp(SecretSetsKind, host, k + 1, data) in c'.stamps;
      }
    }
  }

  /** Per host: how its daemon opens a document, and how the control plane seals for it. */
  ghost predicate SealsAll(opens: Uuid -> Opener, seal: (Uuid, set<SecretSet>) -> Bytes) {
    forall h, bundle :: Seals(opens(h), seal(h, bundle), bundle)
  }

  ghost predicate AllCarry(opens: Uuid -> Opener, c: Server, s: SetServer) {
    && s.stamped.Keys == s.tables.hosts.Keys
    && forall h | h in s.tables.hosts :: Carries(opens(h), c, s, h)
  }

  /** Every counter has room for `n` more. */
  ghost predicate SetRoom(s: SetServer, n: nat) {
    forall h | h in s.stamped :: |s.stamped[h]| + n <= BIGINT_MAX
  }

  lemma OnePushServed(
    parse: Parser, opens: Uuid -> Opener, seal: (Uuid, set<SecretSet>) -> Bytes, c: Server, s: SetServer, h: Uuid)
    requires c.past != [] && AllCarry(opens, c, s) && SealsAll(opens, seal)
    requires h in s.tables.hosts && s.tables.hosts[h] && |s.stamped[h]| < BIGINT_MAX
    ensures AllCarry(opens, Serve(parse, c, StampSecretSets(h, seal(h, Bundle(s.tables, h)))), PushSets(s, {h}))
  {
    hide Seals, Bundle;
    var data := seal(h, Bundle(s.tables, h));
    assert Carries(opens(h), c, s, h) && Seals(opens(h), data, Bundle(s.tables, h));
    forall host | host in s.tables.hosts
      ensures Carries(opens(host), Serve(parse, c, StampSecretSets(h, data)), PushSets(s, {h}), host)
    {
      StampCarries(parse, opens(host), c, s, h, data, host);
    }
    hide Serve, Carries;
  }

  /** The push loop as handler steps on the signing server. */
  lemma {:induction false} PushSetsServed(
    parse: Parser, opens: Uuid -> Opener, seal: (Uuid, set<SecretSet>) -> Bytes, c: Server, s: SetServer,
    hosts: set<Uuid>) returns (ses: seq<ServerEvent>)
    requires c.past != [] && AllCarry(opens, c, s) && SealsAll(opens, seal) && SetRoom(s, 1)
    ensures AllCarry(opens, Schedules.ServeAll(parse, c, ses), PushSets(s, hosts))
    decreases |hosts|
  {
    hide Schedules.ServeAll, Carries, Bundle, SealsAll, PushSets;
    if hosts == {} {
      ses := [];
      Schedules.ServeNone(parse, c);
      PushSetsNone(s);
    } else {
      var h :| h in hosts;
      var rest := hosts - {h};
      ses := PushSetsServed(parse, opens, seal, c, s, rest);
      assert rest + {h} == hosts;
      PushSetsMore(s, rest, h);
      if h in s.tables.hosts && s.tables.hosts[h] {
        var s1, c1 := PushSets(s, rest), Schedules.ServeAll(parse, c, ses);
        PushedApart(s, rest, h);
        var e := StampSecretSets(h, seal(h, Bundle(s.tables, h)));
        OnePushServed(parse, opens, seal, c1, s1, h);
        Schedules.ServeAllJoined(parse, c, ses, [e]);
        Schedules.ServeOne(parse, c1, e);
        ses := ses + [e];
      }
    }
  }

  lemma PushedApart(s: SetServer, rest: set<Uuid>, h: Uuid)
    requires h !in rest && h in s.tables.hosts && s.tables.hosts[h] && s.stamped.Keys == s.tables.hosts.Keys
    ensures var s1 := PushSets(s, rest);
            && s1.stamped[h] == s.stamped[h] && s1.tables == s.tables
            && PushSets(s1, {h}) == s1.(stamped := s1.stamped[h := s1.stamped[h] + [Bundle(s.tables, h)]])
  {
    hide Bundle;
    var s1 := PushSets(s, rest);
    assert PushSets(s1, {h}).stamped == s1.stamped[h := s1.stamped[h] + [Bundle(s.tables, h)]];
  }

  lemma NextHasRoom(s: SetServer, e: SetEvent, n: nat)
    requires SetRoom(s, n + 1) && s.stamped.Keys == s.tables.hosts.Keys && ValidSets(s.tables)
    ensures SetRoom(Next(s, e), n)
  {
    NextKeepsValid(s, e);
    hide Bundle, Mutate, ValidSets;
  }

  /** Every serialized run of mutations and connects is carried by a run of stamps. */
  lemma {:induction false} RunIsCarried(
    parse: Parser, opens: Uuid -> Opener, seal: (Uuid, set<SecretSet>) -> Bytes, c: Server, s: SetServer,
    es: seq<SetEvent>, n: nat) returns (ses: seq<ServerEvent>)
    requires c.past != [] && ValidSets(s.tables)
    requires AllCarry(opens, c, s) && SealsAll(opens, seal) && SetRoom(s, |es| + n)
    ensures AllCarry(opens, Schedules.ServeAll(parse, c, ses), NextAll(s, es)) && SetRoom(NextAll(s, es), n)
  {
    hide Schedules.ServeAll, Carries, Bundle, SealsAll, PushSets, ValidSets, Mutate, SetRoom;
    if es == [] {
      ses := [];
      Schedules.ServeNone(parse, c);
    } else {
      var init, e := es[..|es| - 1], es[|es| - 1];
      ses := RunIsCarried(parse, opens, seal, c, s, init, n + 1);
      var c1, s1 := Schedules.ServeAll(parse, c, ses), NextAll(s, init);
      NextAllKeepsValid(s, init);
      NextHasRoom(s1, e, n);
      RoomForOne(s1, n);
      var next := if e.Changed? then s1.(tables := Mutate(s1.tables, e.mutation).tables) else s1;
      CommitCarries(opens, c1, s1, e);
      var hosts := if e.Changed? then Mutate(s1.tables, e.mutation).pushed else {e.host};
      var more := PushSetsServed(parse, opens, seal, c1, next, hosts);
      Schedules.ServeAllJoined(parse, c, ses, more);
      ses := ses + more;
    }
  }

  lemma RoomForOne(s: SetServer, n: nat)
    requires SetRoom(s, n + 1)
    ensures forall tables :: SetRoom(s.(tables := tables), 1)
  {}

  lemma CommitCarries(opens: Uuid -> Opener, c: Server, s: SetServer, e: SetEvent)
    requires AllCarry(opens, c, s) && ValidSets(s.tables)
    ensures e.Changed? ==> AllCarry(opens, c, s.(tables := Mutate(s.tables, e.mutation).tables))
  {
    if e.Changed? {
      MutateKeepsValid(s.tables, e.mutation);
      hide Mutate, CarriesNumber;
    }
  }

  /** The envelope of the newest bundle is among these. */
  ghost predicate HasNewestSets(c: Server, host: Uuid, envs: seq<Envelope>) {
    && host in c.lastSetSeq
    && exists env :: env in envs && env.number == c.lastSetSeq[host] && VerifiesSets(c.stamps, host, env)
  }

  /** Two stamps of a host under one number are one. */
  lemma OneSetStamp(parse: Parser, c: Server, host: Uuid, number: nat, data: Bytes, data': Bytes)
    requires ServerOk(parse, c)
    requires Stamp(SecretSetsKind, host, number, data) in c.stamps
    requires Stamp(SecretSetsKind, host, number, data') in c.stamps
    ensures data == data'
  {}

  /** The store after any envelopes among which is the newest, in any order: the newest. */
  lemma NewestSetsDelivered(
    parse: Parser, open: Opener, c: Server, host: Uuid, bundle: set<SecretSet>, envs: seq<Envelope>)
    returns (data: Bytes)
    requires ServerOk(parse, c) && HasNewestSets(c, host, envs)
    requires CarriesNumber(open, c, host, c.lastSetSeq[host], bundle)
    ensures var s := ReceiveAll(open, c.stamps, host, Store(Cell(0, map[]), false), envs);
            s.ready && s.cell.number == c.lastSetSeq[host] && Seals(open, data, bundle)
            && s.cell.value == ByName(open(data).value)
  {
    var n := c.lastSetSeq[host];
    data :| Stamp(SecretSetsKind, host, n, data) in c.stamps && Seals(open, data, bundle);
    var env :| env in envs && env.number == n && VerifiesSets(c.stamps, host, env);
    VerifiedSetsAreStamped(parse, c, host, env);
    OneSetStamp(parse, c, host, n, data, env.data);
    StoreHoldsHighestOpened(open, parse, c, host, envs);
    var ms := OpenedMessages(open, c.stamps, host, envs);
    var s := ReceiveAll(open, c.stamps, host, Store(Cell(0, map[]), false), envs);
    assert Message(n, Unsealed(open, data)) in ms;
    assert StampNumberOk(c, Stamp(SecretSetsKind, host, n, data));
    HighestIsNewest(parse, open, c, host, envs, s.cell, data);
  }

  lemma HighestIsNewest(
    parse: Parser, open: Opener, c: Server, host: Uuid, envs: seq<Envelope>, cell: Cell<Opened>, data: Bytes)
    requires ServerOk(parse, c) && host in c.lastSetSeq
    requires Stamp(SecretSetsKind, host, c.lastSetSeq[host], data) in c.stamps && c.lastSetSeq[host] >= 1
    requires open(data).Some?
    requires IsHighest(Cell(0, map[]), OpenedMessages(open, c.stamps, host, envs), cell)
    requires Message(c.lastSetSeq[host], Unsealed(open, data)) in OpenedMessages(open, c.stamps, host, envs)
    ensures cell == Cell(c.lastSetSeq[host], ByName(open(data).value))
  {
    var e :| e in envs && VerifiesSets(c.stamps, host, e) && Unsealed(open, e.data).Some?
             && Message(e.number, Unsealed(open, e.data)) == Message(cell.number, Some(cell.value));
    VerifiedSetsAreStamped(parse, c, host, e);
    assert StampNumberOk(c, Stamp(SecretSetsKind, host, e.number, e.data));
    OneSetStamp(parse, c, host, e.number, data, e.data);
  }

  /** After any serialized run in which the host connected, once the newest bundle has been
      delivered, among any other envelopes in any order, the daemon's store answers every
      bound name with its current set, and no other name. */
  lemma SetsConverge(
    parse: Parser, open: Opener, c: Server, s: SetServer, es: seq<SetEvent>, k: nat, host: Uuid, envs: seq<Envelope>)
    requires ValidSets(s.tables) && host in s.tables.hosts && s.tables.hosts[host]
    requires k < |es| && es[k] == Connected(host)
    requires ServerOk(parse, c) && Carries(open, c, NextAll(s, es), host) && HasNewestSets(c, host, envs)
    ensures var store := ReceiveAll(open, c.stamps, host, Store(Cell(0, map[]), false), envs);
            && store.ready && store.cell.number == c.lastSetSeq[host]
            && (forall x :: x in Bundle(NextAll(s, es).tables, host) <==>
                            x.name in store.cell.value && store.cell.value[x.name] == x)
            && forall name | name in store.cell.value :: store.cell.value[name].name == name
  {
    var s' := NextAll(s, es);
    NextAllKeepsValid(s, es);
    ConnectedEndsCurrent(s, es, k, host);
    var bundle, n := Bundle(s'.tables, host), c.lastSetSeq[host];
    assert CarriesNumber(open, c, host, n, s'.stamped[host][n - 1]);
    hide ServerOk, HasNewestSets, CarriesNumber, NextAll, ReceiveAll, Bundle, ValidSets;
    var data := NewestSetsDelivered(parse, open, c, host, bundle, envs);
    ByNameDomain(open(data).value);
    forall x
      ensures x in bundle <==> x.name in ByName(open(data).value) && ByName(open(data).value)[x.name] == x
    {
      OpenedIsBundle(s'.tables, host, open(data).value, x);
    }
  }
}
