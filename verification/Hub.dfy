/** Live daemon connections by host id (internal/controlplane/hub.go). */
module Hub {
  import opened Wire
  import opened Replication

  /** Identity of a connection's send channel. */
  type ConnId = nat

  /** Capacity of a send channel. */
  const BUFFER: nat := 32

  /** `sent` is what the writer of each connection has taken from its channel so far. */
  datatype State = State(
    conns: map<Uuid, ConnId>,
    queues: map<ConnId, seq<Envelope>>,
    sent: map<ConnId, seq<Envelope>>,
    cancelled: set<ConnId>)

  datatype Call =
    | Register(host: Uuid, conn: ConnId)
    | Unregister(host: Uuid, conn: ConnId)
    | Push(host: Uuid, env: Envelope)
    | Disconnect(host: Uuid, final: Envelope)
    | Take(conn: ConnId)

  function Queue(s: State, c: ConnId): seq<Envelope> {
    if c in s.queues then s.queues[c] else []
  }

  function Sent(s: State, c: ConnId): seq<Envelope> {
    if c in s.sent then s.sent[c] else []
  }

  /** A non-blocking send: a full buffer drops the envelope. */
  function Offered(s: State, c: ConnId, env: Envelope): State {
    if |Queue(s, c)| >= BUFFER then s else s.(queues := s.queues[c := Queue(s, c) + [env]])
  }

  /** A blocking send: None as long as the buffer is full. */
  function Delivered(s: State, c: ConnId, env: Envelope): Option<State> {
    if |Queue(s, c)| >= BUFFER then None else Some(s.(queues := s.queues[c := Queue(s, c) + [env]]))
  }

  function Apply(s: State, call: Call): State {
    match call
    case Register(h, c) => s.(conns := s.conns[h := c])
    case Unregister(h, c) => if h in s.conns && s.conns[h] == c then s.(conns := s.conns - {h}) else s
    case Push(h, env) => if h in s.conns then Offered(s, s.conns[h], env) else s
    case Disconnect(h, final) =>
      if h !in s.conns then s
      else
        var c := s.conns[h];
        Offered(s, c, final).(cancelled := s.cancelled + {c})
    case Take(c) =>
      if Queue(s, c) == [] then s
      else
        s.(queues := s.queues[c := Queue(s, c)[1..]], sent := s.sent[c := Sent(s, c) + [Queue(s, c)[0]]])
  }

  function After(s: State, calls: seq<Call>): State {
    if calls == [] then s else Apply(After(s, calls[..|calls| - 1]), calls[|calls| - 1])
  }

  class Hub {
    var conns: map<Uuid, ConnId>
    var queues: map<ConnId, seq<Envelope>>
    var sent: map<ConnId, seq<Envelope>>
    var cancelled: set<ConnId>

    function Now(): State
      reads this
    {
      State(conns, queues, sent, cancelled)
    }

    constructor ()
      ensures Now() == State(map[], map[], map[], {})
    {
      conns, queues, sent, cancelled := map[], map[], map[], {};
    }

    method Register(host: Uuid, conn: ConnId)
      modifies this
      ensures Now() == Apply(old(Now()), Call.Register(host, conn))
    {
      conns := conns[host := conn];
    }

    method Unregister(host: Uuid, conn: ConnId)
      modifies this
      ensures Now() == Apply(old(Now()), Call.Unregister(host, conn))
    {
      if host in conns && conns[host] == conn {
        conns := conns - {host};
      }
    }

    method Online(host: Uuid) returns (b: bool)
      ensures b <==> host in Now().conns
    {
      b := host in conns;
    }

    method Send(conn: ConnId, env: Envelope)
      modifies this
      ensures Now() == Offered(old(Now()), conn, env)
    {
      var queue := if conn in queues then queues[conn] else [];
      if |queue| < BUFFER {
        queues := queues[conn := queue + [env]];
      }
    }

    /** A blocking send: false while it would block. */
    method BlockingSend(conn: ConnId, env: Envelope) returns (done: bool)
      modifies this
      ensures done <==> Delivered(old(Now()), conn, env).Some?
      ensures Now() == if done then Delivered(old(Now()), conn, env).value else old(Now())
    {
      var queue := if conn in queues then queues[conn] else [];
      done := |queue| < BUFFER;
      if done {
        queues := queues[conn := queue + [env]];
      }
    }

    method Push(host: Uuid, env: Envelope)
      modifies this
      ensures Now() == Apply(old(Now()), Call.Push(host, env))
    {
      if host in conns {
        Send(conns[host], env);
      }
    }

    method Disconnect(host: Uuid, final: Envelope)
      modifies this
      ensures Now() == Apply(old(Now()), Call.Disconnect(host, final))
    {
      if host in conns {
        var conn := conns[host];
        Send(conn, final);
        cancelled := cancelled + {conn};
      }
    }

    /** The writer's receive from a channel. */
    method Take(conn: ConnId) returns (env: Option<Envelope>)
      modifies this
      ensures Now() == Apply(old(Now()), Call.Take(conn))
      ensures env.Some? ==> Sent(Now(), conn) == Sent(old(Now()), conn) + [env.value]
      ensures env.None? <==> Queue(old(Now()), conn) == []
    {
      if conn !in queues || queues[conn] == [] { return None; }
      env := Some(queues[conn][0]);
      queues := queues[conn := queues[conn][1..]];
      sent := sent[conn := (if conn in sent then sent[conn] else []) + [env.value]];
    }
  }

  // ---------------------------------------------------------------------------
  // Every interleaving of connects and teardowns

  /** Call `i` is the most recent registration for the host. */
  predicate Latest(calls: seq<Call>, host: Uuid, i: nat) {
    && i < |calls| && calls[i].Register? && calls[i].host == host
    && forall j | i < j < |calls| :: !(calls[j].Register? && calls[j].host == host)
  }

  /** The connection registered by call `i` has not unregistered since. */
  predicate Standing(calls: seq<Call>, host: Uuid, i: nat)
    requires i < |calls| && calls[i].Register?
  {
    Unregister(host, calls[i].conn) !in calls[i + 1..]
  }

  /** The most recent registration for the host was of `c`, which still stands. */
  ghost predicate Live(calls: seq<Call>, host: Uuid, c: ConnId) {
    exists i: nat :: Latest(calls, host, i) && calls[i].conn == c && Standing(calls, host, i)
  }

  lemma LiveAfterRegister(init: seq<Call>, host: Uuid, c: ConnId, c': ConnId)
    ensures Live(init + [Register(host, c)], host, c') <==> c' == c
  {
    var calls := init + [Register(host, c)];
    assert Latest(calls, host, |init|) && calls[|init| + 1..] == [];
    forall i: nat | Latest(calls, host, i)
      ensures i == |init|
    {
      assert calls[|init|].Register?;
    }
  }

  lemma LiveAfterOther(init: seq<Call>, last: Call, host: Uuid, c: ConnId)
    requires !(last.Register? && last.host == host)
    ensures Live(init + [last], host, c) <==> Live(init, host, c) && last != Unregister(host, c)
  {
    var calls := init + [last];
    forall i: nat | i < |init| && init[i].Register?
      ensures Latest(calls, host, i) <==> Latest(init, host, i)
      ensures Standing(calls, host, i) <==> Standing(init, host, i) && last != Unregister(host, init[i].conn)
    {
      assert calls[i + 1..] == init[i + 1..] + [last];
      if Latest(calls, host, i) {
        forall j | i < j < |init|
          ensures !(init[j].Register? && init[j].host == host)
        {
          assert calls[j] == init[j];
        }
      }
    }
  }

  /** The host's entry is connection `c` exactly when the most recent registration
      for the host was of `c` and `c` has not unregistered since. In particular the
      teardown of an older connection never removes a newer one. */
  lemma {:induction false} EntryIsLatestStanding(s: State, calls: seq<Call>, host: Uuid, c: ConnId)
    requires host !in s.conns
    ensures host in After(s, calls).conns && After(s, calls).conns[host] == c <==> Live(calls, host, c)
  {
    if calls != [] {
      var init, last := calls[..|calls| - 1], calls[|calls| - 1];
      assert calls == init + [last];
      EntryIsLatestStanding(s, init, host, c);
      if last.Register? && last.host == host {
        LiveAfterRegister(init, host, last.conn, c);
      } else {
        LiveAfterOther(init, last, host, c);
      }
    }
  }

  lemma OnlineIffLatestStanding(s: State, calls: seq<Call>, host: Uuid)
    requires host !in s.conns
    ensures host in After(s, calls).conns <==> exists i: nat :: Latest(calls, host, i) && Standing(calls, host, i)
  {
    if host in After(s, calls).conns {
      EntryIsLatestStanding(s, calls, host, After(s, calls).conns[host]);
    }
    if i: nat :| Latest(calls, host, i) && Standing(calls, host, i) {
      EntryIsLatestStanding(s, calls, host, calls[i].conn);
    }
  }

  /** Buffers never overflow, and whatever pushes, drops and receives interleave, what was
      sent and queued on a connection is only ever extended: an envelope is dropped when it
      is offered or not at all, and none overtakes another. */
  lemma {:induction false} ChannelsAreFifo(s: State, calls: seq<Call>, c: ConnId)
    requires |Queue(s, c)| <= BUFFER
    ensures Sent(s, c) <= Sent(After(s, calls), c)
    ensures Sent(s, c) + Queue(s, c) <= Sent(After(s, calls), c) + Queue(After(s, calls), c)
    ensures |Queue(After(s, calls), c)| <= BUFFER
  {
    if calls != [] {
      ChannelsAreFifo(s, calls[..|calls| - 1], c);
      ChannelStep(After(s, calls[..|calls| - 1]), calls[|calls| - 1], c);
    }
  }

  lemma ChannelStep(s: State, call: Call, c: ConnId)
    requires |Queue(s, c)| <= BUFFER
    ensures Sent(s, c) <= Sent(Apply(s, call), c)
    ensures Sent(s, c) + Queue(s, c) <= Sent(Apply(s, call), c) + Queue(Apply(s, call), c)
    ensures |Queue(Apply(s, call), c)| <= BUFFER
  {
    match call {
      case Push(host, env) => if host in s.conns { OfferExtends(s, s.conns[host], env, c); }
      case Disconnect(host, final) => if host in s.conns { OfferExtends(s, s.conns[host], final, c); }
      case Take(conn) => TakeMoves(s, conn, c);
      case _ =>
    }
    hide Offered;
  }

  lemma OfferExtends(s: State, conn: ConnId, env: Envelope, c: ConnId)
    requires |Queue(s, c)| <= BUFFER
    ensures var s' := Offered(s, conn, env);
            Sent(s', c) == Sent(s, c) && Queue(s, c) <= Queue(s', c) && |Queue(s', c)| <= BUFFER
  {}

  lemma TakeMoves(s: State, conn: ConnId, c: ConnId)
    ensures var s' := Apply(s, Take(conn));
            && Sent(s, c) <= Sent(s', c) && |Queue(s', c)| <= |Queue(s, c)|
            && Sent(s', c) + Queue(s', c) == Sent(s, c) + Queue(s, c)
  {
    if conn == c && Queue(s, c) != [] {
      assert Queue(s, c) == [Queue(s, c)[0]] + Queue(s, c)[1..];
    }
  }

  /** The call puts an envelope on channel `c`: it is a push or a disconnect of the host whose
      entry is `c`, and fewer than 32 are queued. */
  function PutBy(s: State, call: Call, c: ConnId): Option<Envelope> {
    match call
    case Push(host, env) => if host in s.conns && s.conns[host] == c && |Queue(s, c)| < 32 then Some(env) else None
    case Disconnect(host, final) =>
      if host in s.conns && s.conns[host] == c && |Queue(s, c)| < 32 then Some(final) else None
    case _ => None
  }

  /** All that the calls put there. */
  function Put(s: State, calls: seq<Call>, c: ConnId): seq<Envelope> {
    if calls == [] then []
    else
      var init, last := calls[..|calls| - 1], calls[|calls| - 1];
      Put(s, init, c) + match PutBy(After(s, init), last, c) case None => [] case Some(env) => [env]
  }

  lemma PutStep(s: State, call: Call, c: ConnId)
    ensures var s' := Apply(s, call);
            Sent(s', c) + Queue(s', c) ==
            Sent(s, c) + Queue(s, c) + match PutBy(s, call, c) case None => [] case Some(env) => [env]
  {
    if call.Take? {
      TakeMoves(s, call.conn, c);
    }
  }

  /** What was sent and what is queued on a channel is, in order, what was put there. */
  lemma {:induction false} ChannelHoldsPut(s: State, calls: seq<Call>, c: ConnId)
    ensures Sent(After(s, calls), c) + Queue(After(s, calls), c) == Sent(s, c) + Queue(s, c) + Put(s, calls, c)
  {
    hide Queue, Sent, PutBy, Apply;
    if calls != [] {
      var init, last := calls[..|calls| - 1], calls[|calls| - 1];
      ChannelHoldsPut(s, init, c);
      PutStep(After(s, init), last, c);
    }
  }

  /** A disconnect of a host whose most recent registration was of `c` and still stood. */
  ghost predicate Disconnected(calls: seq<Call>, c: ConnId) {
    exists i: nat | i < |calls| :: calls[i].Disconnect? && Live(calls[..i], calls[i].host, c)
  }

  lemma DisconnectedNext(init: seq<Call>, last: Call, c: ConnId)
    ensures Disconnected(init + [last], c) <==>
            Disconnected(init, c) || (last.Disconnect? && Live(init, last.host, c))
  {
    hide Live;
    var calls := init + [last];
    assert calls[..|init|] == init && calls[|init|] == last;
    assert forall i: nat | i < |init| :: calls[..i] == init[..i] && calls[i] == init[i];
    if Disconnected(init, c) {
      var i: nat :| i < |init| && init[i].Disconnect? && Live(init[..i], init[i].host, c);
      assert calls[i].Disconnect? && Live(calls[..i], calls[i].host, c);
    }
  }

  /** A connection is cancelled exactly when a disconnect found it standing. */
  lemma {:induction false} CancelledIff(s: State, calls: seq<Call>, c: ConnId)
    requires s.conns == map[]
    ensures c in After(s, calls).cancelled <==> c in s.cancelled || Disconnected(calls, c)
  {
    hide Live, Disconnected;
    if calls == [] {
      NeverDisconnected(c);
    } else {
      var init, last := calls[..|calls| - 1], calls[|calls| - 1];
      assert calls == init + [last];
      CancelledIff(s, init, c);
      DisconnectedNext(init, last, c);
      if last.Disconnect? {
        EntryIsLatestStanding(s, init, last.host, c);
      }
    }
  }

  lemma NeverDisconnected(c: ConnId)
    ensures !Disconnected([], c)
  {}

  // ---------------------------------------------------------------------------
  // Between registering a channel and the initial send on it

  /** The channel is new: nothing was queued on it and no host has it. */
  ghost predicate Unknown(s: State, c: ConnId) {
    c !in s.queues && c !in s.sent && forall h | h in s.conns :: s.conns[h] != c
  }

  /** Calls of others while the handler of channel `c` of `host` prepares its initial send:
      its writer has not started, and nobody else registers its channel. */
  ghost predicate Meanwhile(calls: seq<Call>, host: Uuid, c: ConnId) {
    forall call | call in calls :: call != Take(c) && !(call.Register? && call.conn == c && call.host != host)
  }

  /** The call offers an envelope to channel `c` as the host's entry. */
  predicate Reaches(s: State, call: Call, host: Uuid, c: ConnId) {
    (call.Push? || call.Disconnect?) && call.host == host && host in s.conns && s.conns[host] == c
  }

  /** How many of the calls do. */
  function Hits(s: State, calls: seq<Call>, host: Uuid, c: ConnId): nat {
    if calls == [] then 0
    else
      var init, last := calls[..|calls| - 1], calls[|calls| - 1];
      Hits(s, init, host, c) + if Reaches(After(s, init), last, host, c) then 1 else 0
  }

  /** The channel belongs to nobody but the host. */
  ghost predicate Owned(s: State, host: Uuid, c: ConnId) {
    forall h | h in s.conns && s.conns[h] == c :: h == host
  }

  lemma MeanwhileStep(s: State, call: Call, host: Uuid, c: ConnId)
    requires Owned(s, host, c) && Meanwhile([call], host, c) && |Queue(s, c)| <= BUFFER
    ensures var s' := Apply(s, call);
            && Owned(s', host, c) && Sent(s', c) == Sent(s, c) && Queue(s, c) <= Queue(s', c)
            && |Queue(s', c)| ==
               if Reaches(s, call, host, c) && |Queue(s, c)| < BUFFER then |Queue(s, c)| + 1 else |Queue(s, c)|
  {
    assert call in [call];
  }

  /** Whatever others call meanwhile, the new channel holds one envelope for each offer made
      to it, up to its capacity. */
  lemma {:induction false} MeanwhileQueued(s: State, calls: seq<Call>, host: Uuid, c: ConnId)
    requires Unknown(s, c) && Meanwhile(calls, host, c)
    ensures var s0 := Apply(s, Register(host, c));
            var s' := After(s0, calls);
            var hits := Hits(s0, calls, host, c);
            && Owned(s', host, c) && Sent(s', c) == []
            && |Queue(s', c)| == if hits < BUFFER then hits else BUFFER
  {
    if calls != [] {
      var init, last := calls[..|calls| - 1], calls[|calls| - 1];
      assert Meanwhile([last], host, c) && Meanwhile(init, host, c) by {
        assert last in calls && forall call | call in init :: call in calls;
      }
      MeanwhileQueued(s, init, host, c);
      MeanwhileStep(After(Apply(s, Register(host, c)), init), last, host, c);
    }
  }

  /** The initial send blocks exactly when the channel was reached 32 times meanwhile;
      otherwise its envelope goes behind exactly as many as reached it, and so is the first
      the writer sends exactly when none did. */
  lemma InitialSendIff(s: State, calls: seq<Call>, host: Uuid, c: ConnId, env: Envelope)
    requires Unknown(s, c) && Meanwhile(calls, host, c)
    ensures var s0 := Apply(s, Register(host, c));
            var s' := After(s0, calls);
            var hits := Hits(s0, calls, host, c);
            && (Delivered(s', c, env).None? <==> hits >= BUFFER)
            && (Delivered(s', c, env).Some? ==>
                  var line := Sent(Delivered(s', c, env).value, c) + Queue(Delivered(s', c, env).value, c);
                  |line| == hits + 1 && line[hits] == env && (line == [env] <==> hits == 0))
  {
    MeanwhileQueued(s, calls, host, c);
  }

  /** A blocked initial send stays blocked: its own writer starts only after it. */
  lemma {:induction false} StaysBlocked(s: State, calls: seq<Call>, c: ConnId, env: Envelope)
    requires Delivered(s, c, env).None? && |Queue(s, c)| <= BUFFER && Take(c) !in calls
    ensures Delivered(After(s, calls), c, env).None? && |Queue(After(s, calls), c)| <= BUFFER
  {
    if calls != [] {
      hide Apply, Queue;
      var init, last := calls[..|calls| - 1], calls[|calls| - 1];
      assert last != Take(c) && Take(c) !in init by { assert last in calls; }
      StaysBlocked(s, init, c, env);
      FullStep(After(s, init), last, c);
    }
  }

  lemma FullStep(s: State, call: Call, c: ConnId)
    requires |Queue(s, c)| == BUFFER && call != Take(c)
    ensures |Queue(Apply(s, call), c)| == BUFFER
  {
    match call {
      case Push(host, env) => if host in s.conns { OfferExtends(s, s.conns[host], env, c); }
      case Disconnect(host, final) => if host in s.conns { OfferExtends(s, s.conns[host], final, c); }
      case _ =>
    }
    hide Offered;
  }

  function Pushes(host: Uuid, env: Envelope, n: nat): seq<Call> {
    seq(n, i => Push(host, env))
  }

  lemma {:induction false} PushesHit(s: State, host: Uuid, c: ConnId, env: Envelope, n: nat)
    requires host in s.conns && s.conns[host] == c
    ensures var s' := After(s, Pushes(host, env, n));
            host in s'.conns && s'.conns[host] == c && Hits(s, Pushes(host, env, n), host, c) == n
  {
    if n > 0 {
      assert Pushes(host, env, n)[..n - 1] == Pushes(host, env, n - 1);
      PushesHit(s, host, c, env, n - 1);
    }
  }

  /** From the empty hub: with one push in between the initial snapshot is second, and with
      32 it is never sent. */
  lemma InitialSendOvertaken(host: Uuid, c: ConnId, other: Envelope, env: Envelope, n: nat)
    ensures var s0 := Apply(State(map[], map[], map[], {}), Register(host, c));
            var s' := After(s0, Pushes(host, other, n));
            && (n == 1 ==>
                  Delivered(s', c, env).Some? && Queue(Delivered(s', c, env).value, c) == [other, env])
            && (n >= BUFFER ==> Delivered(s', c, env).None?)
  {
    var s := State(map[], map[], map[], {});
    var s0 := Apply(s, Register(host, c));
    PushesHit(s0, host, c, other, n);
    InitialSendIff(s, Pushes(host, other, n), host, c, env);
    if n == 1 {
      assert Pushes(host, other, 1)[..0] == [] && After(s0, []) == s0;
      assert After(s0, Pushes(host, other, 1)) == Apply(s0, Push(host, other));
    }
  }
}
