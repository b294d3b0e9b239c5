/** The per-address request limiter (internal/controlplane/ratelimit.go): token buckets
    kept in a map whose stale entries are thrown away lazily. Instants are seconds of one
    clock, read once per request; the bucket arithmetic of the rate library is over the
    reals. */
module RateLimit {

  type Ip = string

  const CLEANUP_EVERY: real := 300.0
  const STALE_AFTER: real := 600.0

  /** Tokens per second, and the size of the bucket. */
  datatype Params = Params(rate: real, burst: nat)

  datatype Bucket = Bucket(tokens: real, last: real)

  datatype Visitor = Visitor(bucket: Bucket, lastSeen: real)

  datatype Limiter = Limiter(visitors: map<Ip, Visitor>, lastCleanup: real)

  datatype Request = Request(ip: Ip, at: real)

  function Gain(p: Params, seconds: real): real {
    seconds * p.rate
  }

  function Refilled(p: Params, b: Bucket, now: real): real {
    b.tokens + Gain(p, if now < b.last then 0.0 else now - b.last)
  }

  /** The tokens a bucket holds at an instant. */
  function Level(p: Params, b: Bucket, now: real): real {
    if Refilled(p, b, now) > p.burst as real then p.burst as real else Refilled(p, b, now)
  }

  predicate Allows(p: Params, b: Bucket, now: real) {
    Level(p, b, now) >= 1.0
  }

  function Spend(p: Params, b: Bucket, now: real): Bucket {
    if Allows(p, b, now) then Bucket(Level(p, b, now) - 1.0, now) else b
  }

  function NewBucket(p: Params, now: real): Bucket {
    Bucket(p.burst as real, now)
  }

  predicate IsStale(v: Visitor, now: real) {
    now - v.lastSeen > STALE_AFTER
  }

  function Kept(l: Limiter, now: real): map<Ip, Visitor> {
    if now - l.lastCleanup > CLEANUP_EVERY
    then map ip | ip in l.visitors && !IsStale(l.visitors[ip], now) :: l.visitors[ip]
    else l.visitors
  }

  /** The bucket a request is charged to. */
  function Charged(p: Params, l: Limiter, r: Request): Bucket {
    if r.ip in Kept(l, r.at) then Kept(l, r.at)[r.ip].bucket else NewBucket(p, r.at)
  }

  function Admit(p: Params, l: Limiter, r: Request): Limiter {
    Limiter(Kept(l, r.at)[r.ip := Visitor(Spend(p, Charged(p, l, r), r.at), r.at)],
            if r.at - l.lastCleanup > CLEANUP_EVERY then r.at else l.lastCleanup)
  }

  class RateLimiter {
    const params: Params
    var visitors: map<Ip, Visitor>
    var lastCleanup: real

    function Now(): Limiter
      reads this
    {
      Limiter(visitors, lastCleanup)
    }

    constructor (p: Params, now: real)
      ensures params == p && Now() == Limiter(map[], now)
    {
      params, visitors, lastCleanup := p, map[], now;
    }

    /** Deletes the stale visitors one by one. */
    method Evict(now: real)
      modifies `visitors
      ensures visitors == map ip | ip in old(visitors) && !IsStale(old(visitors)[ip], now) :: old(visitors)[ip]
    {
      var rest := visitors.Keys;
      while rest != {}
        invariant rest <= old(visitors).Keys && visitors.Keys <= old(visitors).Keys
        invariant forall ip | ip in old(visitors) ::
            ip in visitors <==> ip in rest || !IsStale(old(visitors)[ip], now)
        invariant forall ip | ip in visitors :: visitors[ip] == old(visitors)[ip]
        decreases rest
      {
        var ip :| ip in rest;
        if IsStale(visitors[ip], now) {
          visitors := visitors - {ip};
        }
        rest := rest - {ip};
      }
    }

    method LimiterFor(ip: Ip, now: real) returns (bucket: Bucket)
      modifies this
      ensures bucket == Charged(params, old(Now()), Request(ip, now))
      ensures visitors == Kept(old(Now()), now)[ip := Visitor(bucket, now)]
      ensures lastCleanup == if now - old(lastCleanup) > CLEANUP_EVERY then now else old(lastCleanup)
    {
      if now - lastCleanup > CLEANUP_EVERY {
        Evict(now);
        lastCleanup := now;
      }
      if ip !in visitors {
        visitors := visitors[ip := Visitor(NewBucket(params, now), now)];
      }
      bucket := visitors[ip].bucket;
      visitors := visitors[ip := Visitor(bucket, now)];
    }

    /** The middleware's decision on one request. */
    method Allow(ip: Ip, now: real) returns (ok: bool)
      modifies this
      ensures ok == Allows(params, Charged(params, old(Now()), Request(ip, now)), now)
      ensures Now() == Admit(params, old(Now()), Request(ip, now))
    {
      var bucket := LimiterFor(ip, now);
      ok := Allows(params, bucket, now);
      visitors := visitors[ip := Visitor(Spend(params, bucket, now), now)];
    }
  }

  // ---------------------------------------------------------------------------
  // Runs

  /** Requests arrive in time order, from `start` on. */
  ghost predicate Ordered(start: real, rs: seq<Request>) {
    && (forall i | 0 <= i < |rs| :: start <= rs[i].at)
    && (forall i, j | 0 <= i < j < |rs| :: rs[i].at <= rs[j].at)
  }

  /** The limiter after the first `n` requests. */
  function After(p: Params, start: real, rs: seq<Request>, n: nat): Limiter
    requires n <= |rs|
  {
    if n == 0 then Limiter(map[], start) else Admit(p, After(p, start, rs, n - 1), rs[n - 1])
  }

  function Answers(p: Params, start: real, rs: seq<Request>): (r: seq<bool>)
    ensures |r| == |rs|
  {
    seq(|rs|, i requires 0 <= i < |rs| => Allows(p, Charged(p, After(p, start, rs, i), rs[i]), rs[i].at))
  }

  // The reference: one bucket per address, never thrown away.

  function Own(p: Params, s: map<Ip, Bucket>, r: Request): Bucket {
    if r.ip in s then s[r.ip] else NewBucket(p, r.at)
  }

  function Steady(p: Params, rs: seq<Request>, n: nat): map<Ip, Bucket>
    requires n <= |rs|
  {
    if n == 0 then map[]
    else
      var s := Steady(p, rs, n - 1);
      s[rs[n - 1].ip := Spend(p, Own(p, s, rs[n - 1]), rs[n - 1].at)]
  }

  function SteadyAnswers(p: Params, rs: seq<Request>): (r: seq<bool>)
    ensures |r| == |rs|
  {
    seq(|rs|, i requires 0 <= i < |rs| => Allows(p, Own(p, Steady(p, rs, i), rs[i]), rs[i].at))
  }

  // ---------------------------------------------------------------------------
  // Arithmetic of one bucket

  lemma GainIs(p: Params, seconds: real)
    ensures Gain(p, seconds) == p.rate * seconds
  {}

  lemma GainBounds(p: Params, seconds: real, x: real)
    requires x <= p.burst as real + Gain(p, seconds)
    ensures x <= p.burst as real + p.rate * seconds
  {}

  lemma GainMonotone(p: Params, a: real, b: real)
    requires p.rate >= 0.0 && a <= b
    ensures Gain(p, a) <= Gain(p, b)
  {
    assert (b - a) * p.rate >= 0.0;
  }

  lemma GainAdds(p: Params, a: real, b: real)
    ensures Gain(p, a + b) == Gain(p, a) + Gain(p, b) && Gain(p, 0.0) == 0.0
  {}

  predicate Full(p: Params, b: Bucket, now: real) {
    Level(p, b, now) == p.burst as real
  }

  predicate Sound(p: Params, b: Bucket, now: real) {
    0.0 <= b.tokens <= p.burst as real && b.last <= now
  }

  lemma FullStaysFull(p: Params, b: Bucket, now: real, later: real)
    requires p.rate >= 0.0 && Sound(p, b, now) && now <= later && Full(p, b, now)
    ensures Full(p, b, later)
  {
    GainMonotone(p, now - b.last, later - b.last);
  }

  lemma SpendSound(p: Params, b: Bucket, now: real)
    requires p.rate >= 0.0 && Sound(p, b, now)
    ensures Sound(p, Spend(p, b, now), now)
    ensures 0.0 <= Level(p, b, now)
  {
    GainMonotone(p, 0.0, now - b.last);
  }

  /** A bucket untouched for the stale period is full, when the rate refills it in it. */
  lemma StaleIsFull(p: Params, b: Bucket, now: real)
    requires p.rate >= 0.0 && Gain(p, STALE_AFTER) >= p.burst as real
    requires Sound(p, b, now) && now - b.last > STALE_AFTER
    ensures Full(p, b, now)
  {
    GainMonotone(p, STALE_AFTER, now - b.last);
  }

  // ---------------------------------------------------------------------------
  // Eviction is invisible when a bucket refills within the stale period

  /** Two buckets nobody can tell apart from `now` on. */
  predicate Alike(p: Params, b: Bucket, c: Bucket, now: real) {
    b == c || (Full(p, b, now) && Full(p, c, now))
  }

  ghost predicate Related(p: Params, l: Limiter, s: map<Ip, Bucket>, now: real) {
    && l.visitors.Keys <= s.Keys
    && (forall ip | ip in s :: Sound(p, s[ip], now))
    && (forall ip | ip in l.visitors ::
          && Sound(p, l.visitors[ip].bucket, now)
          && s[ip].last <= l.visitors[ip].lastSeen
          && Alike(p, l.visitors[ip].bucket, s[ip], now))
    && (forall ip | ip in s && ip !in l.visitors :: Full(p, s[ip], now))
  }

  lemma TimePasses(p: Params, l: Limiter, s: map<Ip, Bucket>, now: real, later: real)
    requires p.rate >= 0.0 && now <= later && Related(p, l, s, now)
    ensures Related(p, l, s, later)
  {
    forall ip | ip in s && Full(p, s[ip], now)
      ensures Full(p, s[ip], later)
    {
      FullStaysFull(p, s[ip], now, later);
    }
    forall ip | ip in l.visitors && Full(p, l.visitors[ip].bucket, now)
      ensures Full(p, l.visitors[ip].bucket, later)
    {
      FullStaysFull(p, l.visitors[ip].bucket, now, later);
    }
  }

  lemma EvictionKeepsRelated(p: Params, l: Limiter, s: map<Ip, Bucket>, now: real)
    requires p.rate >= 0.0 && Gain(p, STALE_AFTER) >= p.burst as real && Related(p, l, s, now)
    ensures Related(p, l.(visitors := Kept(l, now)), s, now)
  {
    hide Full, Gain, Alike;
    forall ip | ip in s && ip !in Kept(l, now)
      ensures Full(p, s[ip], now)
    {
      if ip in l.visitors {
        StaleIsFull(p, s[ip], now);
      }
    }
  }

  lemma ChargedAlike(p: Params, l: Limiter, s: map<Ip, Bucket>, r: Request)
    requires p.rate >= 0.0 && Related(p, l.(visitors := Kept(l, r.at)), s, r.at)
    ensures Alike(p, Charged(p, l, r), Own(p, s, r), r.at)
    ensures Sound(p, Charged(p, l, r), r.at) && Sound(p, Own(p, s, r), r.at)
  {
    assert Full(p, NewBucket(p, r.at), r.at);
  }

  lemma SpendAlike(p: Params, b: Bucket, c: Bucket, now: real)
    requires p.rate >= 0.0 && Alike(p, b, c, now)
    ensures Allows(p, b, now) == Allows(p, c, now)
    ensures Alike(p, Spend(p, b, now), Spend(p, c, now), now)
  {}

  lemma AdmitKeepsRelated(p: Params, l: Limiter, s: map<Ip, Bucket>, r: Request)
    requires p.rate >= 0.0 && Related(p, l.(visitors := Kept(l, r.at)), s, r.at)
    ensures Allows(p, Charged(p, l, r), r.at) == Allows(p, Own(p, s, r), r.at)
    ensures Related(p, Admit(p, l, r), s[r.ip := Spend(p, Own(p, s, r), r.at)], r.at)
  {
    ChargedAlike(p, l, s, r);
    var b, c := Charged(p, l, r), Own(p, s, r);
    SpendAlike(p, b, c, r.at);
    SpendSound(p, b, r.at);
    SpendSound(p, c, r.at);
    hide Full, Gain, Alike, Kept, Charged, Own, Spend, Level;
  }

  /** Both limiters stay related along a run, and the next answer is the same. */
  lemma {:induction false} RunsRelated(p: Params, start: real, rs: seq<Request>, n: nat)
    requires p.rate >= 0.0 && Gain(p, STALE_AFTER) >= p.burst as real
    requires Ordered(start, rs) && n <= |rs|
    ensures Related(p, After(p, start, rs, n), Steady(p, rs, n), if n == 0 then start else rs[n - 1].at)
  {
    if n > 0 {
      RunsRelated(p, start, rs, n - 1);
      StepRelated(p, start, rs, n - 1);
    }
  }

  lemma StepRelated(p: Params, start: real, rs: seq<Request>, i: nat)
    requires p.rate >= 0.0 && Gain(p, STALE_AFTER) >= p.burst as real
    requires Ordered(start, rs) && i < |rs|
    requires Related(p, After(p, start, rs, i), Steady(p, rs, i), if i == 0 then start else rs[i - 1].at)
    ensures Related(p, After(p, start, rs, i + 1), Steady(p, rs, i + 1), rs[i].at)
    ensures Answers(p, start, rs)[i] == SteadyAnswers(p, rs)[i]
  {
    hide Related, Charged, Own, Admit, Spend, Allows;
    var l, s := After(p, start, rs, i), Steady(p, rs, i);
    TimePasses(p, l, s, if i == 0 then start else rs[i - 1].at, rs[i].at);
    EvictionKeepsRelated(p, l, s, rs[i].at);
    AdmitKeepsRelated(p, l, s, rs[i]);
    assert s[rs[i].ip := Spend(p, Own(p, s, rs[i]), rs[i].at)] == Steady(p, rs, i + 1);
  }

  lemma EvictionIsInvisible(p: Params, start: real, rs: seq<Request>)
    requires p.rate >= 0.0 && 600.0 * p.rate >= p.burst as real && Ordered(start, rs)
    ensures Answers(p, start, rs) == SteadyAnswers(p, rs)
  {
    assert Gain(p, STALE_AFTER) >= p.burst as real;
    forall i | 0 <= i < |rs|
      ensures Answers(p, start, rs)[i] == SteadyAnswers(p, rs)[i]
    {
      RunsRelated(p, start, rs, i);
      StepRelated(p, start, rs, i);
    }
  }

  // ---------------------------------------------------------------------------
  // What a bucket bounds

  /** Requests of `ip` answered yes among i .. j-1. */
  function Passed(rs: seq<Request>, answers: seq<bool>, ip: Ip, i: nat, j: nat): nat
    requires i <= j <= |rs| == |answers|
    decreases j
  {
    if i == j then 0
    else Passed(rs, answers, ip, i, j - 1) + if rs[j - 1].ip == ip && answers[j - 1] then 1 else 0
  }

  /** The tokens `ip` could spend at `now` after the first `n` requests. */
  function Credit(p: Params, rs: seq<Request>, n: nat, ip: Ip, now: real): real
    requires n <= |rs|
  {
    Level(p, Own(p, Steady(p, rs, n), Request(ip, now)), now)
  }

  lemma {:induction false} SteadySound(p: Params, start: real, rs: seq<Request>, n: nat, ip: Ip)
    requires p.rate >= 0.0 && Ordered(start, rs) && n <= |rs| && ip in Steady(p, rs, n)
    ensures n > 0 && Sound(p, Steady(p, rs, n)[ip], rs[n - 1].at)
  {
    var s, r := Steady(p, rs, n - 1), rs[n - 1];
    if ip in s {
      SteadySound(p, start, rs, n - 1, ip);
      assert rs[n - 2].at <= r.at;
      SpendSound(p, s[ip], r.at);
    } else {
      SpendSound(p, NewBucket(p, r.at), r.at);
    }
  }

  lemma CreditBounds(p: Params, start: real, rs: seq<Request>, n: nat, ip: Ip, now: real)
    requires p.rate >= 0.0 && Ordered(start, rs) && n <= |rs|
    requires n > 0 ==> rs[n - 1].at <= now
    ensures 0.0 <= Credit(p, rs, n, ip, now) <= p.burst as real
  {
    if ip in Steady(p, rs, n) {
      SteadySound(p, start, rs, n, ip);
      SpendSound(p, Steady(p, rs, n)[ip], now);
    } else {
      SpendSound(p, NewBucket(p, now), now);
    }
  }

  lemma LevelGrows(p: Params, b: Bucket, now: real, later: real)
    requires p.rate >= 0.0 && b.last <= now <= later
    ensures Level(p, b, later) <= Level(p, b, now) + Gain(p, later - now)
  {
    GainAdds(p, now - b.last, later - now);
    GainMonotone(p, 0.0, later - now);
  }

  lemma SpendPays(p: Params, b: Bucket, now: real, later: real)
    requires p.rate >= 0.0 && Sound(p, b, now) && now <= later
    ensures Level(p, Spend(p, b, now), later)
            <= Level(p, b, now) - (if Allows(p, b, now) then 1.0 else 0.0) + Gain(p, later - now)
  {
    SpendSound(p, b, now);
    LevelGrows(p, Spend(p, b, now), now, later);
    GainAdds(p, 0.0, 0.0);
    hide Gain;
  }

  /** One request: what passes is paid from the credit. */
  lemma CreditSpent(p: Params, start: real, rs: seq<Request>, n: nat, ip: Ip, later: real)
    requires p.rate >= 0.0 && Ordered(start, rs) && n < |rs| && rs[n].at <= later
    ensures var paid := if rs[n].ip == ip && SteadyAnswers(p, rs)[n] then 1.0 else 0.0;
            Credit(p, rs, n + 1, ip, later) <= Credit(p, rs, n, ip, rs[n].at) - paid + Gain(p, later - rs[n].at)
  {
    var s, r := Steady(p, rs, n), rs[n];
    if ip in s {
      SteadySound(p, start, rs, n, ip);
      assert rs[n - 1].at <= r.at;
    }
    GainMonotone(p, 0.0, later - r.at);
    GainAdds(p, 0.0, 0.0);
    assert Level(p, NewBucket(p, later), later) == Level(p, NewBucket(p, r.at), r.at);
    var own := Own(p, s, Request(ip, r.at));
    SpendPays(p, own, r.at, later);
    LevelGrows(p, own, r.at, later);
    hide Gain, Level, Spend, Allows;
  }

  /** From request i on, no more can pass than the credit then held plus what drips in. */
  lemma {:induction false} PassedIsPaid(p: Params, start: real, rs: seq<Request>, ip: Ip, i: nat, j: nat, now: real)
    requires p.rate >= 0.0 && Ordered(start, rs) && i < j <= |rs| && rs[j - 1].at <= now
    ensures Passed(rs, SteadyAnswers(p, rs), ip, i, j) as real + Credit(p, rs, j, ip, now)
            <= p.burst as real + Gain(p, now - rs[i].at)
    decreases j
  {
    hide Credit, SteadyAnswers, Steady, Gain;
    CreditSpent(p, start, rs, j - 1, ip, now);
    if j - 1 == i {
      CreditBounds(p, start, rs, i, ip, rs[i].at);
      assert Passed(rs, SteadyAnswers(p, rs), ip, i, i) == 0;
    } else {
      assert rs[j - 2].at <= rs[j - 1].at;
      PassedIsPaid(p, start, rs, ip, i, j - 1, rs[j - 1].at);
      GainAdds(p, rs[j - 1].at - rs[i].at, now - rs[j - 1].at);
    }
  }

  /** No address passes more often than the burst plus the rate times the time elapsed. */
  lemma SteadyBound(p: Params, start: real, rs: seq<Request>, ip: Ip, i: nat, j: nat)
    requires p.rate >= 0.0 && Ordered(start, rs) && i < j <= |rs|
    ensures Passed(rs, SteadyAnswers(p, rs), ip, i, j) as real
            <= p.burst as real + p.rate * (rs[j - 1].at - rs[i].at)
  {
    hide Gain, Credit, Steady, SteadyAnswers;
    PassedIsPaid(p, start, rs, ip, i, j, rs[j - 1].at);
    CreditBounds(p, start, rs, j, ip, rs[j - 1].at);
    GainBounds(p, rs[j - 1].at - rs[i].at, Passed(rs, SteadyAnswers(p, rs), ip, i, j) as real);
  }

  // ---------------------------------------------------------------------------
  // Exactly when a request passes

  /** The instant of request `i`, or `now` past the first `n`. */
  function Instant(rs: seq<Request>, i: nat, n: nat, now: real): real
    requires i <= n <= |rs|
  {
    if i < n then rs[i].at else now
  }

  function Least(a: real, b: real): real {
    if a < b then a else b
  }

  /** A denied request leaves the bucket as it is, one that passes takes a token; then it fills. */
  lemma SpendKeeps(p: Params, b: Bucket, now: real, later: real)
    requires p.rate >= 0.0 && Sound(p, b, now) && now <= later
    ensures var left := Level(p, b, now) - (if Allows(p, b, now) then 1.0 else 0.0) + Gain(p, later - now);
            Level(p, Spend(p, b, now), later) >= Least(left, p.burst as real)
  {
    GainAdds(p, now - b.last, later - now);
    GainAdds(p, 0.0, 0.0);
    GainMonotone(p, 0.0, later - now);
    GainMonotone(p, 0.0, now - b.last);
    hide Gain;
  }

  /** A request of the address costs its credit no more than the token it takes. */
  lemma CreditKept(p: Params, start: real, rs: seq<Request>, n: nat, later: real)
    requires p.rate >= 0.0 && Ordered(start, rs) && n < |rs| && rs[n].at <= later
    ensures var ip, paid := rs[n].ip, if SteadyAnswers(p, rs)[n] then 1.0 else 0.0;
            Credit(p, rs, n + 1, ip, later) >=
            Least(Credit(p, rs, n, ip, rs[n].at) - paid + Gain(p, later - rs[n].at), p.burst as real)
  {
    hide Gain, Level, Allows, Spend, Sound;
    OwnSound(p, start, rs, n);
    SpendKeeps(p, Own(p, Steady(p, rs, n), rs[n]), rs[n].at, later);
  }

  lemma OwnSound(p: Params, start: real, rs: seq<Request>, n: nat)
    requires p.rate >= 0.0 && Ordered(start, rs) && n < |rs|
    ensures Sound(p, Own(p, Steady(p, rs, n), rs[n]), rs[n].at)
  {
    hide Steady;
    if rs[n].ip in Steady(p, rs, n) {
      SteadySound(p, start, rs, n, rs[n].ip);
      assert rs[n - 1].at <= rs[n].at;
    }
  }

  /** A request of another address does not touch it. */
  lemma CreditUntouched(p: Params, rs: seq<Request>, n: nat, ip: Ip, now: real)
    requires n < |rs| && rs[n].ip != ip
    ensures Credit(p, rs, n + 1, ip, now) == Credit(p, rs, n, ip, now)
  {
    hide Gain, Level, Allows, Spend;
  }

  /** A bucketful and what dripped in since request `i`, less what passed since. */
  function Owed(p: Params, rs: seq<Request>, ip: Ip, i: nat, n: nat, now: real): real
    requires i <= n <= |rs|
  {
    p.burst as real + Gain(p, now - Instant(rs, i, n, now)) - Passed(rs, SteadyAnswers(p, rs), ip, i, n) as real
  }

  lemma OwedNow(p: Params, rs: seq<Request>, ip: Ip, n: nat, now: real)
    requires n <= |rs|
    ensures Owed(p, rs, ip, n, n, now) == p.burst as real
  {
    hide Gain, SteadyAnswers;
    GainAdds(p, 0.0, 0.0);
  }

  lemma OwedNext(p: Params, rs: seq<Request>, ip: Ip, i: nat, n: nat, now: real)
    requires i <= n < |rs|
    ensures var paid := if rs[n].ip == ip && SteadyAnswers(p, rs)[n] then 1.0 else 0.0;
            Owed(p, rs, ip, i, n + 1, now) == Owed(p, rs, ip, i, n, rs[n].at) - paid + Gain(p, now - rs[n].at)
  {
    hide Gain, SteadyAnswers;
    GainAdds(p, rs[n].at - rs[i].at, now - rs[n].at);
    GainAdds(p, 0.0, 0.0);
  }

  lemma OwedLater(p: Params, rs: seq<Request>, ip: Ip, i: nat, n: nat, now: real)
    requires i < n < |rs| && rs[n].ip != ip
    ensures Owed(p, rs, ip, i, n + 1, now) == Owed(p, rs, ip, i, n, now)
  {
    hide Gain, SteadyAnswers;
  }

  /** Some request up to now accounts for all the credit there is. */
  lemma {:induction false} CreditIsOwed(p: Params, start: real, rs: seq<Request>, n: nat, ip: Ip, now: real)
    returns (i: nat)
    requires p.rate >= 0.0 && Ordered(start, rs) && n <= |rs| && (n > 0 ==> rs[n - 1].at <= now)
    ensures i <= n && Credit(p, rs, n, ip, now) >= Owed(p, rs, ip, i, n, now)
  {
    hide Gain, Credit, Owed, SteadyAnswers;
    i := n;
    OwedNow(p, rs, ip, n, now);
    if n == 0 {
      NewCredit(p, rs, ip, now);
    } else {
      var m := n - 1;
      if m > 0 { assert rs[m - 1].at <= rs[m].at; }
      if rs[m].ip != ip {
        CreditUntouched(p, rs, m, ip, now);
        OwedNow(p, rs, ip, m, now);
        var j := CreditIsOwed(p, start, rs, m, ip, now);
        if j < m {
          OwedLater(p, rs, ip, j, m, now);
          i := j;
        }
      } else {
        CreditKept(p, start, rs, m, now);
        var j := CreditIsOwed(p, start, rs, m, ip, rs[m].at);
        OwedNext(p, rs, ip, j, m, now);
        i := if Credit(p, rs, n, ip, now) >= p.burst as real then n else j;
      }
    }
  }

  lemma NewCredit(p: Params, rs: seq<Request>, ip: Ip, now: real)
    ensures Credit(p, rs, 0, ip, now) == p.burst as real
  {
    GainAdds(p, 0.0, 0.0);
    hide Gain;
  }

  lemma OwedAtMost(p: Params, start: real, rs: seq<Request>, ip: Ip, i: nat, n: nat, now: real)
    requires p.rate >= 0.0 && Ordered(start, rs) && i <= n <= |rs| && (n > 0 ==> rs[n - 1].at <= now)
    ensures Credit(p, rs, n, ip, now) <= Owed(p, rs, ip, i, n, now)
  {
    hide Gain, Credit, SteadyAnswers;
    if i < n {
      PassedIsPaid(p, start, rs, ip, i, n, now);
    } else {
      CreditBounds(p, start, rs, n, ip, now);
      OwedNow(p, rs, ip, n, now);
    }
  }

  /** One more than have passed is within the burst and the rate times the seconds. */
  predicate Room(p: Params, passed: nat, seconds: real) {
    passed as real + 1.0 <= p.burst as real + p.rate * seconds
  }

  lemma RoomIs(p: Params, passed: nat, seconds: real)
    ensures Room(p, passed, seconds) <==> p.burst as real + Gain(p, seconds) - passed as real >= 1.0
  {
    GainIs(p, seconds);
    hide Gain;
  }

  lemma RoomIsOwed(p: Params, rs: seq<Request>, ip: Ip, i: nat, n: nat)
    requires i <= n < |rs|
    ensures Room(p, Passed(rs, SteadyAnswers(p, rs), ip, i, n), rs[n].at - rs[i].at) <==>
            Owed(p, rs, ip, i, n, rs[n].at) >= 1.0
  {
    hide Gain, SteadyAnswers, Room;
    RoomIs(p, Passed(rs, SteadyAnswers(p, rs), ip, i, n), rs[n].at - rs[i].at);
  }

  lemma AnswerIsCredit(p: Params, rs: seq<Request>, n: nat)
    requires n < |rs|
    ensures SteadyAnswers(p, rs)[n] <==> Credit(p, rs, n, rs[n].ip, rs[n].at) >= 1.0
  {
    hide Level, Steady;
  }

  /** There was room for request `n`, counted from request `i`. */
  predicate RoomSince(p: Params, rs: seq<Request>, i: nat, n: nat)
    requires i <= n < |rs|
  {
    Room(p, Passed(rs, SteadyAnswers(p, rs), rs[n].ip, i, n), rs[n].at - rs[i].at)
  }

  lemma PassedHadRoom(p: Params, start: real, rs: seq<Request>, i: nat, n: nat)
    requires p.rate >= 0.0 && Ordered(start, rs) && i <= n < |rs| && SteadyAnswers(p, rs)[n]
    ensures RoomSince(p, rs, i, n)
  {
    hide Gain, Credit, Owed, SteadyAnswers, Room;
    if n > 0 { assert rs[n - 1].at <= rs[n].at; }
    AnswerIsCredit(p, rs, n);
    OwedAtMost(p, start, rs, rs[n].ip, i, n, rs[n].at);
    RoomIsOwed(p, rs, rs[n].ip, i, n);
  }

  lemma DeniedHadNone(p: Params, start: real, rs: seq<Request>, n: nat) returns (i: nat)
    requires p.rate >= 0.0 && Ordered(start, rs) && n < |rs| && !SteadyAnswers(p, rs)[n]
    ensures i <= n && !RoomSince(p, rs, i, n)
  {
    hide Gain, Credit, Owed, SteadyAnswers, Room;
    if n > 0 { assert rs[n - 1].at <= rs[n].at; }
    AnswerIsCredit(p, rs, n);
    i := CreditIsOwed(p, start, rs, n, rs[n].ip, rs[n].at);
    RoomIsOwed(p, rs, rs[n].ip, i, n);
  }

  /** A request passes exactly if, counted from every request up to it, what has passed of its
      address stays below the burst plus the rate times the time elapsed. */
  lemma PassesIff(p: Params, start: real, rs: seq<Request>, n: nat)
    requires p.rate >= 0.0 && Ordered(start, rs) && n < |rs|
    ensures SteadyAnswers(p, rs)[n] <==> forall i: nat | i <= n :: RoomSince(p, rs, i, n)
  {
    hide SteadyAnswers, RoomSince;
    if SteadyAnswers(p, rs)[n] {
      forall i: nat | i <= n
        ensures RoomSince(p, rs, i, n)
      {
        PassedHadRoom(p, start, rs, i, n);
      }
    } else {
      var i := DeniedHadNone(p, start, rs, n);
    }
  }

  // ---------------------------------------------------------------------------
  // The condition is exact

  /** A bucketful at instant 0 and another at instant `t`. */
  function Twice(p: Params, ip: Ip, t: real): (rs: seq<Request>)
    ensures |rs| == 2 * p.burst
  {
    seq(2 * p.burst, i => Request(ip, if i < p.burst then 0.0 else t))
  }

  /** One visitor, `k` tokens down at `now`. */
  function Drained(p: Params, ip: Ip, now: real, k: nat): map<Ip, Visitor> {
    if k == 0 then map[] else map[ip := Visitor(Bucket((p.burst - k) as real, now), now)]
  }

  lemma Admitted(p: Params, l: Limiter, r: Request, k: nat)
    requires k < p.burst && Kept(l, r.at) == Drained(p, r.ip, r.at, k)
    ensures Allows(p, Charged(p, l, r), r.at)
    ensures Admit(p, l, r) == Limiter(Drained(p, r.ip, r.at, k + 1),
                                      if r.at - l.lastCleanup > CLEANUP_EVERY then r.at else l.lastCleanup)
  {
    GainAdds(p, 0.0, 0.0);
    hide Gain, Kept;
  }

  lemma Unroll(p: Params, start: real, rs: seq<Request>, i: nat)
    requires i < |rs|
    ensures After(p, start, rs, i + 1) == Admit(p, After(p, start, rs, i), rs[i])
    ensures Answers(p, start, rs)[i] == Allows(p, Charged(p, After(p, start, rs, i), rs[i]), rs[i].at)
  {}

  lemma Untouched(p: Params, ip: Ip, start: real, rs: seq<Request>)
    ensures After(p, start, rs, 0) == Limiter(Drained(p, ip, start, 0), start)
  {}

  lemma {:induction false} FirstBucketful(p: Params, ip: Ip, t: real, k: nat)
    requires t > STALE_AFTER && k <= p.burst
    ensures After(p, 0.0, Twice(p, ip, t), k) == Limiter(Drained(p, ip, 0.0, k), 0.0)
    ensures forall i | 0 <= i < k :: Answers(p, 0.0, Twice(p, ip, t))[i]
  {
    hide Allows, Charged, Drained, Admit, After, Answers;
    if k == 0 {
      Untouched(p, ip, 0.0, Twice(p, ip, t));
    } else {
      FirstBucketful(p, ip, t, k - 1);
      Unroll(p, 0.0, Twice(p, ip, t), k - 1);
      Admitted(p, After(p, 0.0, Twice(p, ip, t), k - 1), Request(ip, 0.0), k - 1);
    }
  }

  /** At instant `t` the drained bucket is stale and the map due for cleaning. */
  lemma Emptied(p: Params, ip: Ip, t: real, k: nat)
    requires t > STALE_AFTER
    ensures Kept(Limiter(Drained(p, ip, 0.0, k), 0.0), t) == Drained(p, ip, t, 0)
  {}

  lemma {:induction false} SecondBucketful(p: Params, ip: Ip, t: real, k: nat)
    requires t > STALE_AFTER && 0 < k <= p.burst
    ensures After(p, 0.0, Twice(p, ip, t), p.burst + k) == Limiter(Drained(p, ip, t, k), t)
    ensures forall i | p.burst <= i < p.burst + k :: Answers(p, 0.0, Twice(p, ip, t))[i]
  {
    hide Allows, Charged, Drained, Admit, After, Answers;
    var l := After(p, 0.0, Twice(p, ip, t), p.burst + k - 1);
    if k == 1 {
      FirstBucketful(p, ip, t, p.burst);
      Emptied(p, ip, t, p.burst);
    } else {
      SecondBucketful(p, ip, t, k - 1);
    }
    Unroll(p, 0.0, Twice(p, ip, t), p.burst + k - 1);
    Admitted(p, l, Request(ip, t), k - 1);
  }

  lemma {:induction false} AllPassed(rs: seq<Request>, answers: seq<bool>, ip: Ip, j: nat)
    requires j <= |rs| == |answers|
    requires forall i | 0 <= i < |rs| :: rs[i].ip == ip && answers[i]
    ensures Passed(rs, answers, ip, 0, j) == j
  {
    if j > 0 {
      AllPassed(rs, answers, ip, j - 1);
    }
  }

  /** A bucket that refills too slowly is full again too early when it is thrown away. */
  lemma EvictionShows(p: Params, ip: Ip, t: real)
    requires p.rate >= 0.0 && t > 600.0 && t * p.rate < p.burst as real
    ensures Ordered(0.0, Twice(p, ip, t))
    ensures Answers(p, 0.0, Twice(p, ip, t)) != SteadyAnswers(p, Twice(p, ip, t))
  {
    hide Gain, Answers, SteadyAnswers;
    var rs := Twice(p, ip, t);
    GainMonotone(p, 0.0, t);
    GainAdds(p, 0.0, 0.0);
    FirstBucketful(p, ip, t, p.burst);
    SecondBucketful(p, ip, t, p.burst);
    AllPassed(rs, Answers(p, 0.0, rs), ip, |rs|);
    GainIs(p, t);
    SteadyBound(p, 0.0, rs, ip, 0, |rs|);
  }

  ghost predicate Invisible(p: Params) {
    forall start, rs | Ordered(start, rs) :: Answers(p, start, rs) == SteadyAnswers(p, rs)
  }

  /** An instant past the stale period at which a slow bucket is not yet full. */
  lemma NotYetFull(p: Params) returns (t: real)
    requires p.rate >= 0.0 && Gain(p, STALE_AFTER) < p.burst as real
    ensures t > STALE_AFTER && t * p.rate < p.burst as real
  {
    if p.rate == 0.0 {
      t := STALE_AFTER + 1.0;
    } else {
      var gap := p.burst as real - Gain(p, STALE_AFTER);
      t := STALE_AFTER + gap / (2.0 * p.rate);
      GainAdds(p, STALE_AFTER, gap / (2.0 * p.rate));
      assert Gain(p, gap / (2.0 * p.rate)) == gap / 2.0;
    }
  }

  /** Throwing stale buckets away changes no answer on any run exactly when a bucket
      refills within the stale period. */
  lemma EvictionIsInvisibleIff(p: Params)
    requires p.rate >= 0.0
    ensures Invisible(p) <==> 600.0 * p.rate >= p.burst as real
  {
    if Gain(p, STALE_AFTER) >= p.burst as real {
      forall start, rs | Ordered(start, rs)
        ensures Answers(p, start, rs) == SteadyAnswers(p, rs)
      {
        EvictionIsInvisible(p, start, rs);
      }
    } else {
      var t := NotYetFull(p);
      EvictionShows(p, "", t);
    }
  }

  // ---------------------------------------------------------------------------
  // The parameters of the control plane

  /** One token every six seconds, ten at once. */
  const AUTH := Params(1.0 / 6.0, 10)

  /** On the authentication endpoints a request passes exactly if, counted from every request
      up to it, no more than nine of its address have passed and one for every six seconds. */
  lemma AuthPassesIff(start: real, rs: seq<Request>, n: nat)
    requires Ordered(start, rs) && n < |rs|
    ensures Answers(AUTH, start, rs)[n] <==>
            forall i: nat | i <= n ::
              Passed(rs, Answers(AUTH, start, rs), rs[n].ip, i, n) as real <= 9.0 + (rs[n].at - rs[i].at) / 6.0
  {
    EvictionIsInvisible(AUTH, start, rs);
    PassesIff(AUTH, start, rs, n);
    hide Answers, SteadyAnswers, RoomSince;
    forall i: nat | i <= n
      ensures RoomSince(AUTH, rs, i, n) <==>
              Passed(rs, SteadyAnswers(AUTH, rs), rs[n].ip, i, n) as real <= 9.0 + (rs[n].at - rs[i].at) / 6.0
    {
      AuthRoom(rs, i, n);
    }
  }

  lemma AuthRoom(rs: seq<Request>, i: nat, n: nat)
    requires i <= n < |rs|
    ensures RoomSince(AUTH, rs, i, n) <==>
            Passed(rs, SteadyAnswers(AUTH, rs), rs[n].ip, i, n) as real <= 9.0 + (rs[n].at - rs[i].at) / 6.0
  {
    hide SteadyAnswers;
  }

  /** So eviction changes no answer, and no address passes more than ten requests and one more
      for every six seconds elapsed. */
  lemma AuthLimiterBound(start: real, rs: seq<Request>, ip: Ip, i: nat, j: nat)
    requires Ordered(start, rs) && i < j <= |rs|
    ensures Answers(AUTH, start, rs) == SteadyAnswers(AUTH, rs)
    ensures Passed(rs, Answers(AUTH, start, rs), ip, i, j) as real <= 10.0 + (rs[j - 1].at - rs[i].at) / 6.0
  {
    EvictionIsInvisible(AUTH, start, rs);
    SteadyBound(AUTH, start, rs, ip, i, j);
  }
}
