/** What each mutation of the secret sets does to the bundle of each host, from the bundle
    before it (internal/controlplane/secret_sets.go). */
module SetEffects {
  import opened Wire
  import opened Register
  import opened Replication
  import opened SecretSets

  /** The mutation is not refused. */
  ghost predicate Accepts(t: SetTables, m: Mutation) {
    match m
    case Rename(id, name, _) =>
      name != "" && id in t.sets && forall other | other in t.sets && other != id :: t.sets[other].name != name
    case UpsertEntry(id, key, _, _) => key != "" && id in t.sets
    case DeleteEntry(id, key, _) => id in t.sets && key in t.sets[id].values
    case DeleteSet(id) => id in t.sets
    case Bind(host, id, _) => id in t.sets && host in t.hosts
    case Unbind(host, id) => id in t.sets && (host, id) in t.bindings
  }

  /** The set is the host's and another than `id`. */
  predicate Other(t: SetTables, host: Uuid, id: Uuid, x: SecretSet)
    requires id in t.sets
  {
    x in Bundle(t, host) && x.name != t.sets[id].name
  }

  /** The set is in the host's bundle once the mutation has been made. */
  ghost predicate BundledAfter(t: SetTables, m: Mutation, host: Uuid, x: SecretSet) {
    if !Accepts(t, m) then x in Bundle(t, host)
    else
      var row, bound := t.sets[m.id], (host, m.id) in t.bindings;
      match m
      case Rename(id, name, now) =>
        Other(t, host, id, x) || (bound && x == SecretSet(name, t.bindings[(host, id)], now, row.values))
      case UpsertEntry(id, key, value, now) =>
        || Other(t, host, id, x)
        || (bound && x == SecretSet(row.name, t.bindings[(host, id)], now, row.values[key := value]))
      case DeleteEntry(id, key, now) =>
        || Other(t, host, id, x)
        || (bound && x == SecretSet(row.name, t.bindings[(host, id)], now, row.values - {key}))
      case DeleteSet(id) => Other(t, host, id, x)
      case Bind(to, id, asUser) =>
        if host != to then x in Bundle(t, host)
        else Other(t, host, id, x) || x == SecretSet(row.name, asUser, row.version, row.values)
      case Unbind(from, id) => if host != from then x in Bundle(t, host) else Other(t, host, id, x)
  }

  /** The host's set for one binding. */
  ghost predicate From(t: SetTables, host: Uuid, id: Uuid, x: SecretSet) {
    && id in t.sets && (host, id) in t.bindings
    && x == SecretSet(t.sets[id].name, t.bindings[(host, id)], t.sets[id].version, t.sets[id].values)
  }

  lemma BundleFrom(t: SetTables, host: Uuid, x: SecretSet)
    ensures x in Bundle(t, host) <==> exists id :: From(t, host, id, x)
  {
    if x in Bundle(t, host) {
      var b :| b in t.bindings && b.0 == host && b.1 in t.sets
               && x == SecretSet(t.sets[b.1].name, t.bindings[b], t.sets[b.1].version, t.sets[b.1].values);
      assert b == (host, b.1);
      assert From(t, host, b.1, x);
    }
    if id :| From(t, host, id, x) {
      InBundle(t, (host, id));
    }
  }

  lemma OtherFrom(t: SetTables, host: Uuid, id: Uuid, x: SecretSet)
    requires ValidSets(t) && id in t.sets
    ensures Other(t, host, id, x) <==> exists other :: other != id && From(t, host, other, x)
  {
    BundleFrom(t, host, x);
    hide Bundle;
  }

  lemma OthersStay(t: SetTables, m: Mutation, host: Uuid, id: Uuid, x: SecretSet)
    requires id != m.id
    ensures From(Mutate(t, m).tables, host, id, x) <==> From(t, host, id, x)
  {}

  /** What the set itself becomes. */
  lemma OwnBecomes(t: SetTables, m: Mutation, host: Uuid, x: SecretSet)
    requires ValidSets(t) && Accepts(t, m)
    ensures var row, bound := t.sets[m.id], (host, m.id) in t.bindings;
            From(Mutate(t, m).tables, host, m.id, x) <==>
            match m
            case Rename(id, name, now) => bound && x == SecretSet(name, t.bindings[(host, id)], now, row.values)
            case UpsertEntry(id, key, value, now) =>
              bound && x == SecretSet(row.name, t.bindings[(host, id)], now, row.values[key := value])
            case DeleteEntry(id, key, now) =>
              bound && x == SecretSet(row.name, t.bindings[(host, id)], now, row.values - {key})
            case DeleteSet(id) => false
            case Bind(to, id, asUser) =>
              if host != to then From(t, host, id, x) else x == SecretSet(row.name, asUser, row.version, row.values)
            case Unbind(from, id) => host != from && From(t, host, id, x)
  {}

  /** Every mutation leaves each host exactly the sets it should. */
  lemma MutateBundles(t: SetTables, m: Mutation, host: Uuid, x: SecretSet)
    requires ValidSets(t)
    ensures x in Bundle(Mutate(t, m).tables, host) <==> BundledAfter(t, m, host, x)
  {
    var next := Mutate(t, m).tables;
    BundleFrom(t, host, x);
    BundleFrom(next, host, x);
    if Accepts(t, m) {
      OwnBecomes(t, m, host, x);
      OtherFrom(t, host, m.id, x);
      hide Mutate, ValidSets, Bundle, From, Other;
      forall id | id != m.id
        ensures From(next, host, id, x) <==> From(t, host, id, x)
      {
        OthersStay(t, m, host, id, x);
      }
    } else {
      assert next == t;
    }
  }

  /** And the rows: a mutation of a set changes the one field or entry it names and its version,
      bound or not, and no other set. */
  lemma MutateRows(t: SetTables, m: Mutation)
    requires Accepts(t, m)
    ensures var next, row := Mutate(t, m).tables, t.sets[m.id];
            && (forall id | id != m.id :: id in next.sets <==> id in t.sets)
            && (forall id | id != m.id && id in t.sets :: next.sets[id] == t.sets[id])
            && (m.id in next.sets <==> !m.DeleteSet?)
            && (m.Bind? || m.Unbind? ==> next.sets[m.id] == row)
            && (m.Rename? ==> next.sets[m.id] == SetRow(m.name, m.now, row.values))
            && (m.UpsertEntry? || m.DeleteEntry? ==>
                  && next.sets[m.id].name == row.name && next.sets[m.id].version == m.now
                  && (forall key | key != m.key :: key in next.sets[m.id].values <==> key in row.values)
                  && (forall key | key != m.key && key in row.values ::
                        next.sets[m.id].values[key] == row.values[key]))
            && (m.UpsertEntry? ==> m.key in next.sets[m.id].values && next.sets[m.id].values[m.key] == m.value)
            && (m.DeleteEntry? ==> m.key !in next.sets[m.id].values)
  {}

  /** After any serialized run in which the host connected, one more mutation, and delivery of the
      newest bundle among any other envelopes: the store answers with the sets the mutation
      leaves the host, and with no other; in particular not with one it withdrew. */
  lemma StoreAfterMutation(
    parse: Parser, open: Opener, c: Server, s: SetServer, es: seq<SetEvent>, k: nat, m: Mutation, host: Uuid,
    envs: seq<Envelope>)
    requires ValidSets(s.tables) && host in s.tables.hosts && s.tables.hosts[host]
    requires k < |es| && es[k] == Connected(host)
    requires ServerOk(parse, c) && Carries(open, c, NextAll(s, es + [Changed(m)]), host) && HasNewestSets(c, host, envs)
    ensures var store := ReceiveAll(open, c.stamps, host, Store(Cell(0, map[]), false), envs);
            var t := NextAll(s, es).tables;
            && store.ready
            && (forall x :: BundledAfter(t, m, host, x) <==>
                            x.name in store.cell.value && store.cell.value[x.name] == x)
            && (forall name | name in store.cell.value :: store.cell.value[name].name == name)
            && (Accepts(t, m) && (m == Unbind(host, m.id) || m == DeleteSet(m.id)) ==>
                  t.sets[m.id].name !in store.cell.value)
  {
    var run := es + [Changed(m)];
    SetsConverge(parse, open, c, s, run, k, host, envs);
    NextAllKeepsValid(s, es);
    var t := NextAll(s, es).tables;
    assert run[..|run| - 1] == es;
    assert NextAll(s, run).tables == Mutate(t, m).tables;
    hide ServerOk, Carries, HasNewestSets, NextAll, ReceiveAll, Bundle, ValidSets, BundledAfter, Mutate;
    forall x
      ensures x in Bundle(Mutate(t, m).tables, host) <==> BundledAfter(t, m, host, x)
    {
      MutateBundles(t, m, host, x);
    }
    if Accepts(t, m) && (m == Unbind(host, m.id) || m == DeleteSet(m.id)) {
      Withdrawn(t, m, host);
    }
  }

  /** A set that is unbound or deleted leaves no set of its name. */
  lemma Withdrawn(t: SetTables, m: Mutation, host: Uuid)
    requires Accepts(t, m) && (m == Unbind(host, m.id) || m == DeleteSet(m.id))
    ensures forall x | BundledAfter(t, m, host, x) :: x.name != t.sets[m.id].name
  {}
}
