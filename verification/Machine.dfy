/** One machine of the replicated system with its real directory: the process of the
    daemon, crash points included, run inside the interleaved world. */
module Machine {
  import opened Wire
  import opened Register
  import opened Directory
  import opened Replication
  import opened DaemonCache
  import opened AuthKeys

  /** The world, and the memory and files of machine `m` in it. */
  datatype Joint = Joint(world: World, life: Life)

  /** What happens at the machine, with the details of its writes, or elsewhere. */
  datatype JointEvent =
    | Elsewhere(event: Event)
    | Arrives(env: Envelope, listing: seq<AccessEntry>, tmp: string, fault: Fault)
    | Rejected(tmp: string, fault: Fault)
    | Starts
    | Enrols(host: Uuid)

  /** What the event is to the machine's process. */
  function AtProcess(stamps: set<Stamp>, e: JointEvent): CacheEvent {
    match e
    case Arrives(env, listing, tmp, fault) => Arrive(env, stamps, listing, tmp, fault)
    case Rejected(tmp, fault) => Clear(tmp, fault)
    case _ => Boot
  }

  /** What the event is to the world: a write is saved exactly if the rename took place. */
  function InWorld(m: nat, e: JointEvent): Event {
    match e
    case Elsewhere(event) => event
    case Arrives(env, _, _, fault) => AtDaemon(m, Deliver(env, Replaces(fault)))
    case Rejected(_, fault) => AtDaemon(m, DaemonEvent.Purge(Replaces(fault)))
    case Starts => AtDaemon(m, Restart)
    case Enrols(host) => AtDaemon(m, Enrol(host))
  }

  /** The process is up and enrolled, the temporary name is fresh, and what is written lists
      the map. */
  ghost predicate Enabled(parse: Parser, m: nat, j: Joint, e: JointEvent)
    requires j.world.server.past != []
  {
    match e
    case Elsewhere(event) => !(event.AtDaemon? && event.machine == m)
    case Arrives(env, listing, tmp, _) =>
      && m in j.world.daemons && j.life.alive && tmp !in j.life.files && tmp != CACHE_FILE
      && (Accepted(parse, j.world.server.stamps, j.world.daemons[m].host, j.life.mem.number, env) ==>
            Lists(listing, ByFingerprint(parse(env.data).value)))
    case Rejected(tmp, _) => m in j.world.daemons && j.life.alive && tmp !in j.life.files && tmp != CACHE_FILE
    case Starts => m in j.world.daemons
    case Enrols(host) => host in Current(j.world.server).hosts
  }

  ghost function HostOf(w: World, m: nat, e: JointEvent): Uuid
    requires m in w.daemons || e.Enrols?
  {
    if m in w.daemons then w.daemons[m].host else e.host
  }

  ghost function JointStep(codec: Codec, parse: Parser, m: nat, j: Joint, e: JointEvent): (j': Joint)
    requires j.world.server.past != []
    ensures j'.world.server.past != []
  {
    if !Enabled(parse, m, j, e) then j
    else
      var world := Step(parse, j.world, InWorld(m, e));
      if e.Elsewhere? then Joint(world, j.life)
      else Joint(world, Lives(codec, parse, HostOf(j.world, m, e), j.life, AtProcess(j.world.server.stamps, e)))
  }

  ghost function JointRun(codec: Codec, parse: Parser, m: nat, j: Joint, es: seq<JointEvent>): (j': Joint)
    requires j.world.server.past != []
    ensures j'.world.server.past != []
  {
    if es == [] then j
    else JointStep(codec, parse, m, JointRun(codec, parse, m, j, es[..|es| - 1]), es[|es| - 1])
  }

  /** Before the first enrolment there is no cache file; from then on memory and file are the
      memory and disk of the machine's daemon in the world. */
  ghost predicate Agrees(codec: Codec, m: nat, j: Joint) {
    if m in j.world.daemons then Mirrors(codec, j.life, j.world.daemons[m])
    else Loaded(codec, j.life.files) == Some(Cell(0, map[]))
  }

  lemma ElsewhereAgrees(codec: Codec, parse: Parser, m: nat, j: Joint, e: Event)
    requires Agrees(codec, m, j) && j.world.server.past != [] && !(e.AtDaemon? && e.machine == m)
    ensures Agrees(codec, m, Joint(Step(parse, j.world, e), j.life))
  {
    hide Serve, React;
  }

  lemma EnrolsAgrees(codec: Codec, parse: Parser, m: nat, j: Joint, host: Uuid, anyHost: Uuid)
    requires Agrees(codec, m, j) && j.world.server.past != [] && host in Current(j.world.server).hosts
    ensures Agrees(codec, m, Joint(Step(parse, j.world, AtDaemon(m, Enrol(host))),
                                   Lives(codec, parse, anyHost, j.life, Boot)))
  {
    hide Loaded;
  }

  lemma HereAgrees(codec: Codec, parse: Parser, m: nat, j: Joint, e: JointEvent)
    requires Faithful(codec) && Inv(parse, j.world) && Agrees(codec, m, j) && m in j.world.daemons
    requires !e.Elsewhere? && !e.Enrols? && Enabled(parse, m, j, e)
    ensures Agrees(codec, m, JointStep(codec, parse, m, j, e))
  {
    var d, stamps := j.world.daemons[m], j.world.server.stamps;
    StampsAreNumbered(parse, j.world.server);
    StepMirrors(codec, parse, j.life, d, AtProcess(stamps, e));
    assert Follows(parse, d, AtProcess(stamps, e)) == React(parse, stamps, d, InWorld(m, e).de);
    hide Mirrors, Lives, React, Follows, Inv;
  }

  lemma JointStepAgrees(codec: Codec, parse: Parser, m: nat, j: Joint, e: JointEvent)
    requires Faithful(codec) && Inv(parse, j.world) && Agrees(codec, m, j)
    ensures var j' := JointStep(codec, parse, m, j, e);
            && Inv(parse, j'.world) && Agrees(codec, m, j')
            && j'.world == if Enabled(parse, m, j, e) then Step(parse, j.world, InWorld(m, e)) else j.world
  {
    assert j.world.server.past != [];
    hide Inv, Agrees, Step, Lives;
    if Enabled(parse, m, j, e) {
      StepKeepsInv(parse, j.world, InWorld(m, e));
      match e {
        case Elsewhere(event) => ElsewhereAgrees(codec, parse, m, j, event);
        case Enrols(host) => EnrolsAgrees(codec, parse, m, j, host, HostOf(j.world, m, e));
        case _ => HereAgrees(codec, parse, m, j, e);
      }
    }
  }

  /** Every joint run is a run of the world in which, once enrolled, the machine's memory is
      its daemon's memory and its cache.json loads as its daemon's disk. */
  lemma {:induction false} FileIsDaemonsDisk(
    codec: Codec, parse: Parser, m: nat, t: Tables, life: Life, es: seq<JointEvent>) returns (run: seq<Event>)
    requires Faithful(codec) && Valid(t) && Unused(life)
    ensures var j := JointRun(codec, parse, m, Joint(Init(t), life), es);
            && j.world == Run(parse, Init(t), run) && Inv(parse, j.world) && Agrees(codec, m, j)
  {
    hide Inv, Step, JointStep, Lives, Enabled;
    var j0 := Joint(Init(t), life);
    if es == [] {
      run := [];
      StartAgrees(codec, parse, m, t, life);
    } else {
      var init, e := es[..|es| - 1], es[|es| - 1];
      run := FileIsDaemonsDisk(codec, parse, m, t, life, init);
      var j := JointRun(codec, parse, m, j0, init);
      JointStepAgrees(codec, parse, m, j, e);
      if Enabled(parse, m, j, e) {
        assert (run + [InWorld(m, e)])[..|run|] == run;
        run := run + [InWorld(m, e)];
      }
    }
  }

  lemma StartAgrees(codec: Codec, parse: Parser, m: nat, t: Tables, life: Life)
    requires Valid(t) && Unused(life)
    ensures Inv(parse, Init(t)) && Agrees(codec, m, Joint(Init(t), life))
  {}

  /** What authorizeFromDisk reads. */
  function OnDisk(codec: Codec, files: Files): Option<View> {
    match Loaded(codec, files)
    case None => None
    case Some(cell) => Some(cell.value)
  }

  /** End to end with the real file: in every joint run, whatever AuthorizedKey prints on the
      machine, over the socket or from cache.json as the crashes and failed writes left it,
      is decided by one committed state each, under the host id the content was accepted
      for; the file always loads. */
  lemma MachinePrintsEntitled(codec: Codec, parse: Parser, m: nat, t: Tables, life: Life, es: seq<JointEvent>)
    returns (memory: Basis, file: Basis)
    requires Faithful(codec) && Valid(t) && Unused(life)
    requires m in JointRun(codec, parse, m, Joint(Init(t), life), es).world.daemons
    ensures var j := JointRun(codec, parse, m, Joint(Init(t), life), es);
            var d, past := j.world.daemons[m], j.world.server.past;
            var disk := OnDisk(codec, j.life.files);
            && disk.Some?
            && IsBasis(past, d.memFor, j.life.mem.value, memory) && IsBasis(past, d.diskFor, disk.value, file)
            && (forall f, a | Plain(f) ::
                  Prints(memory, d.memFor, f, Before(a, '\n'), Printed(j.life.mem.value, disk, true, f, a).value))
            && (forall f, a ::
                  Prints(file, d.diskFor, f, a, Printed(j.life.mem.value, disk, false, f, a).value))
  {
    var run := FileIsDaemonsDisk(codec, parse, m, t, life, es);
    hide JointRun, Run, Inv, IsBasis, Prints, Printed, Loaded, Before, Plain;
    memory, file := PrintedLinesAreEntitled(parse, t, run, m);
  }
}
