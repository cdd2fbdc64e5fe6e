/** The per-client token bucket in front of the agent endpoint (`RateLimiter::check`), in exact arithmetic. */
module RateLimiter {
  import opened Sets

  type Client = string

  datatype Bucket = Bucket(tokens: real, lastRefill: real)

  /** `rate` requests per minute, which is also the capacity of a bucket. */
  datatype Config = Config(rate: nat, maxBuckets: nat)

  datatype Table = Table(buckets: map<Client, Bucket>, checks: nat)

  function Capacity(cfg: Config): real { cfg.rate as real }

  /** Tokens that `seconds` bring; a clock that ran backwards brings none. */
  function Refill(cfg: Config, seconds: real): real {
    if seconds < 0.0 then 0.0 else seconds * (cfg.rate as real / 60.0)
  }

  /** Tokens `client` could spend at `now`; a client without a bucket would get a full one. */
  function Level(cfg: Config, buckets: map<Client, Bucket>, client: Client, now: real): real {
    if client !in buckets then Capacity(cfg)
    else
      var filled := buckets[client].tokens + Refill(cfg, now - buckets[client].lastRefill);
      if filled < Capacity(cfg) then filled else Capacity(cfg)
  }

  // ── One check ─────────────────────────────────────────────────

  function Sweep(buckets: map<Client, Bucket>, now: real): map<Client, Bucket> {
    map c | c in buckets && now - buckets[c].lastRefill < 300.0 :: buckets[c]
  }

  predicate Oldest(buckets: map<Client, Bucket>, victim: Client) {
    victim in buckets && forall c | c in buckets :: buckets[victim].lastRefill <= buckets[c].lastRefill
  }

  predicate MustEvict(cfg: Config, buckets: map<Client, Bucket>, client: Client) {
    |buckets| >= cfg.maxBuckets && client !in buckets && buckets != map[]
  }

  function Spend(cfg: Config, buckets: map<Client, Bucket>, client: Client, now: real): (map<Client, Bucket>, bool) {
    var level := Level(cfg, buckets, client, now);
    if level >= 1.0 then (buckets[client := Bucket(level - 1.0, now)], true)
    else (buckets[client := Bucket(level, now)], false)
  }

  /** `cleanup` tells whether this limiter drops idle buckets at all; `victim` is the oldest bucket the map yields. */
  function Check(cfg: Config, cleanup: bool, t: Table, client: Client, now: real, victim: Client): (Table, bool) {
    if cfg.rate == 0 then (t, true)
    else
      var kept := Kept(cleanup, t, now);
      var room := if MustEvict(cfg, kept, client) then kept - {victim} else kept;
      var (buckets, ok) := Spend(cfg, room, client, now);
      (Table(buckets, t.checks + 1), ok)
  }

  /** Every hundredth check drops the buckets idle for 300 seconds. */
  function Kept(cleanup: bool, t: Table, now: real): map<Client, Bucket> {
    if cleanup && (t.checks + 1) % 100 == 0 then Sweep(t.buckets, now) else t.buckets
  }

  class Limiter {
    const cfg: Config
    var buckets: map<Client, Bucket>
    var checkCount: nat

    constructor (requestsPerMinute: nat)
      ensures cfg == Config(requestsPerMinute, 10000) && buckets == map[] && checkCount == 0
    {
      cfg := Config(requestsPerMinute, 10000);
      buckets, checkCount := map[], 0;
    }

    method CheckRequest(client: Client, now: real) returns (ok: bool, ghost victim: Client)
      modifies this
      ensures (Table(buckets, checkCount), ok)
          == Check(cfg, true, Table(old(buckets), old(checkCount)), client, now, victim)
      ensures var kept := Kept(true, Table(old(buckets), old(checkCount)), now);
              cfg.rate > 0 && MustEvict(cfg, kept, client) ==> Oldest(kept, victim)
    {
      hide Spend; hide Oldest;
      victim := client;
      if cfg.rate == 0 { return true, client; }
      checkCount := checkCount + 1;
      if checkCount % 100 == 0 {
        buckets := map c | c in buckets && now - buckets[c].lastRefill < 300.0 :: buckets[c];
      }
      if |buckets| >= cfg.maxBuckets && client !in buckets && buckets != map[] {
        OldestExists(buckets);
        var oldest :| Oldest(buckets, oldest);
        victim := oldest;
        buckets := buckets - {oldest};
      }
      ok := Take(client, now);
    }

    /** Refills the client's bucket, creating a full one if there is none, and takes a token if it can. */
    method Take(client: Client, now: real) returns (ok: bool)
      modifies this
      ensures (buckets, ok) == Spend(cfg, old(buckets), client, now) && checkCount == old(checkCount)
    {
      if client !in buckets {
        buckets := buckets[client := Bucket(cfg.rate as real, now)];
      }
      var bucket := buckets[client];
      var elapsed := if now < bucket.lastRefill then 0.0 else now - bucket.lastRefill;
      var tokens := bucket.tokens + elapsed * (cfg.rate as real / 60.0);
      if tokens > cfg.rate as real { tokens := cfg.rate as real; }
      ok := tokens >= 1.0;
      if ok { tokens := tokens - 1.0; }
      buckets := buckets[client := Bucket(tokens, now)];
      NoTimeNoRefill(cfg);
      assert buckets == old(buckets)[client := Bucket(tokens, now)];
    }
  }

  lemma NoTimeNoRefill(cfg: Config)
    ensures 0.0 * (cfg.rate as real / 60.0) == 0.0
  {
  }

  lemma {:induction false} OldestExists(buckets: map<Client, Bucket>)
    requires buckets != map[]
    ensures exists k :: Oldest(buckets, k)
    decreases |buckets|
  {
    var c :| c in buckets;
    var rest := buckets - {c};
    if rest == map[] {
      assert forall d | d in buckets :: d == c || d in rest;
      assert Oldest(buckets, c);
    } else {
      assert rest.Keys == buckets.Keys - {c};
      OldestExists(rest);
      var k :| Oldest(rest, k);
      assert Oldest(buckets, if buckets[c].lastRefill <= buckets[k].lastRefill then c else k) by {
        forall d | d in buckets && d != c ensures d in rest {}
      }
    }
  }

  // ── Levels ────────────────────────────────────────────────────

  lemma RefillAdds(cfg: Config, a: real, b: real)
    requires a >= 0.0 && b >= 0.0
    ensures Refill(cfg, a + b) == Refill(cfg, a) + Refill(cfg, b)
    ensures 0.0 <= Refill(cfg, b)
  {
    var r := cfg.rate as real / 60.0;
    assert (a + b) * r == a * r + b * r;
  }

  ghost predicate TableInv(cfg: Config, buckets: map<Client, Bucket>, now: real) {
    && |buckets| <= cfg.maxBuckets
    && forall c | c in buckets :: 0.0 <= buckets[c].tokens <= Capacity(cfg) && buckets[c].lastRefill <= now
  }

  /** Waiting raises a level by exactly what the time brings, up to the capacity. */
  lemma LevelRises(cfg: Config, buckets: map<Client, Bucket>, client: Client, now: real, later: real)
    requires client in buckets ==> buckets[client].lastRefill <= now
    requires now <= later
    ensures var raised := Level(cfg, buckets, client, now) + Refill(cfg, later - now);
            Level(cfg, buckets, client, later) == if raised < Capacity(cfg) then raised else Capacity(cfg)
    ensures Level(cfg, buckets, client, now) <= Level(cfg, buckets, client, later)
  {
    RefillAdds(cfg, 0.0, later - now);
    if client in buckets { RefillAdds(cfg, now - buckets[client].lastRefill, later - now); }
  }

  /** Dropping a bucket idle for 300 seconds changes no level: refill makes it full after 60. */
  lemma SweepKeepsLevels(cfg: Config, buckets: map<Client, Bucket>, now: real, client: Client, later: real)
    requires TableInv(cfg, buckets, now) && now <= later
    ensures Level(cfg, Sweep(buckets, now), client, later) == Level(cfg, buckets, client, later)
  {
    if client in buckets && client !in Sweep(buckets, now) {
      var idle := later - buckets[client].lastRefill;
      RefillAdds(cfg, 60.0, idle - 60.0);
      assert Refill(cfg, 60.0) == 60.0 * (cfg.rate as real / 60.0) == Capacity(cfg);
    }
  }

  lemma LevelInRange(cfg: Config, buckets: map<Client, Bucket>, client: Client, now: real)
    requires TableInv(cfg, buckets, now)
    ensures 0.0 <= Level(cfg, buckets, client, now) <= Capacity(cfg)
  {
    if client in buckets { RefillAdds(cfg, 0.0, now - buckets[client].lastRefill); }
  }

  lemma SpendKeepsInv(cfg: Config, room: map<Client, Bucket>, client: Client, now: real)
    requires TableInv(cfg, room, now) && (client !in room ==> |room| < cfg.maxBuckets)
    ensures TableInv(cfg, Spend(cfg, room, client, now).0, now)
  {
    hide Level; hide Capacity;
    var after := Spend(cfg, room, client, now).0;
    LevelInRange(cfg, room, client, now);
    SpendIsExact(cfg, room, client, now);
    assert |after| == |after.Keys| && |room| == |room.Keys|;
    if client in room { assert after.Keys == room.Keys; }
  }

  lemma EvictKeepsInv(cfg: Config, kept: map<Client, Bucket>, client: Client, now: real, victim: Client)
    requires cfg.maxBuckets > 0 && TableInv(cfg, kept, now)
    requires MustEvict(cfg, kept, client) ==> Oldest(kept, victim)
    ensures var room := if MustEvict(cfg, kept, client) then kept - {victim} else kept;
            TableInv(cfg, room, now) && (client !in room ==> |room| < cfg.maxBuckets)
  {
    if MustEvict(cfg, kept, client) {
      var room := kept - {victim};
      assert room.Keys == kept.Keys - {victim};
      assert |room| == |room.Keys| && |kept| == |kept.Keys|;
    }
  }

  lemma KeptKeepsInv(cfg: Config, cleanup: bool, t: Table, before: real, now: real)
    requires before <= now && TableInv(cfg, t.buckets, before)
    ensures TableInv(cfg, Kept(cleanup, t, now), now)
  {
    var kept := Kept(cleanup, t, now);
    assert kept.Keys <= t.buckets.Keys;
    SubmapSize(kept, t.buckets);
  }

  /** Every check keeps the tokens within capacity and the table within its size. */
  lemma CheckKeepsInv(cfg: Config, cleanup: bool, t: Table, client: Client, before: real, now: real, victim: Client)
    requires cfg.maxBuckets > 0 && before <= now && TableInv(cfg, t.buckets, before)
    requires var kept := Kept(cleanup, t, now); MustEvict(cfg, kept, client) ==> Oldest(kept, victim)
    ensures TableInv(cfg, Check(cfg, cleanup, t, client, now, victim).0.buckets, now)
  {
    if cfg.rate > 0 {
      hide TableInv; hide Spend; hide Kept; hide MustEvict; hide Oldest;
      var kept := Kept(cleanup, t, now);
      KeptKeepsInv(cfg, cleanup, t, before, now);
      EvictKeepsInv(cfg, kept, client, now, victim);
      SpendKeepsInv(cfg, if MustEvict(cfg, kept, client) then kept - {victim} else kept, client, now);
    }
  }

  // ── Runs ──────────────────────────────────────────────────────

  datatype Request = Request(client: Client, now: real, victim: Client)

  /** Requests in the order of their times, each evicting an oldest bucket where one must go. */
  predicate Legal(cfg: Config, cleanup: bool, t: Table, from: real, requests: seq<Request>)
    decreases |requests|
  {
    requests == [] ||
    var r := requests[0];
    && from <= r.now
    && (MustEvict(cfg, Kept(cleanup, t, r.now), r.client) ==> Oldest(Kept(cleanup, t, r.now), r.victim))
    && Legal(cfg, cleanup, Check(cfg, cleanup, t, r.client, r.now, r.victim).0, r.now, requests[1..])
  }

  /** Answers to the requests, in order. */
  function Answers(cfg: Config, cleanup: bool, t: Table, requests: seq<Request>): seq<bool>
    decreases |requests|
  {
    if requests == [] then []
    else
      var r := requests[0];
      var (t', ok) := Check(cfg, cleanup, t, r.client, r.now, r.victim);
      [ok] + Answers(cfg, cleanup, t', requests[1..])
  }

  function After(cfg: Config, t: Table, requests: seq<Request>): Table
    decreases |requests|
  {
    if requests == [] then t
    else After(cfg, Check(cfg, true, t, requests[0].client, requests[0].now, requests[0].victim).0, requests[1..])
  }

  /** Requests of `client` let through. */
  function Admitted(cfg: Config, t: Table, client: Client, requests: seq<Request>): nat
    decreases |requests|
  {
    if requests == [] then 0
    else
      var r := requests[0];
      var (t', ok) := Check(cfg, true, t, r.client, r.now, r.victim);
      (if ok && r.client == client then 1 else 0) + Admitted(cfg, t', client, requests[1..])
  }

  /** Times the size limit threw `client`'s bucket out. */
  function Evictions(cfg: Config, t: Table, client: Client, requests: seq<Request>): nat
    decreases |requests|
  {
    if requests == [] then 0
    else
      var r := requests[0];
      (if MustEvict(cfg, Kept(true, t, r.now), r.client) && r.victim == client then 1 else 0)
      + Evictions(cfg, Check(cfg, true, t, r.client, r.now, r.victim).0, client, requests[1..])
  }

  function End(from: real, requests: seq<Request>): real {
    if requests == [] then from else requests[|requests| - 1].now
  }

  /** The check at `r` throws `client`'s bucket out to make room. */
  predicate Evicted(cfg: Config, t: Table, client: Client, r: Request) {
    MustEvict(cfg, Kept(true, t, r.now), r.client) && r.victim == client
  }

  /** What one check does to a client's level: it is admitted exactly with a whole token, which it then has less; a
      refusal, another client's check and the clean-up of idle buckets change no level; eviction fills it up. */
  lemma CheckLevel(cfg: Config, t: Table, client: Client, before: real, r: Request)
    requires cfg.rate > 0 && cfg.maxBuckets > 0 && before <= r.now && TableInv(cfg, t.buckets, before)
    requires MustEvict(cfg, Kept(true, t, r.now), r.client) ==> Oldest(Kept(true, t, r.now), r.victim)
    ensures var (t', ok) := Check(cfg, true, t, r.client, r.now, r.victim);
            && ok == (Level(cfg, t.buckets, r.client, r.now) >= 1.0)
            && Level(cfg, t'.buckets, client, r.now)
               == if Evicted(cfg, t, client, r) then Capacity(cfg)
                  else Level(cfg, t.buckets, client, r.now) - (if ok && r.client == client then 1.0 else 0.0)
    ensures TableInv(cfg, Check(cfg, true, t, r.client, r.now, r.victim).0.buckets, r.now)
    ensures 0.0 <= Level(cfg, t.buckets, client, r.now) <= Capacity(cfg)
  {
    CheckKeepsInv(cfg, true, t, r.client, before, r.now, r.victim);
    SweepKeepsLevels(cfg, t.buckets, r.now, client, r.now);
    SweepKeepsLevels(cfg, t.buckets, r.now, r.client, r.now);
    LevelInRange(cfg, t.buckets, client, r.now);
    LevelInRange(cfg, t.buckets, r.client, r.now);
    NoRefill(cfg);
    hide Refill; hide Capacity; hide Sweep;
  }

  /** What one check does to the table: the client's bucket is refilled to now, every hundredth check drops the buckets
      idle for 300 seconds, a new client in a full table takes the place of a longest-unused one, and every other
      bucket stays as it is. */
  lemma CheckIsExact(cfg: Config, t: Table, before: real, r: Request)
    requires cfg.rate > 0 && cfg.maxBuckets > 0 && before <= r.now && TableInv(cfg, t.buckets, before)
    requires MustEvict(cfg, Kept(true, t, r.now), r.client) ==> Oldest(Kept(true, t, r.now), r.victim)
    ensures var after := Check(cfg, true, t, r.client, r.now, r.victim).0;
            var stay := set c | c in t.buckets
                          && ((t.checks + 1) % 100 != 0 || r.now - t.buckets[c].lastRefill < 300.0);
            var full := r.client !in stay && |stay| >= cfg.maxBuckets;
            && after.checks == t.checks + 1
            && after.buckets.Keys == stay - (if full then {r.victim} else {}) + {r.client}
            && after.buckets[r.client].lastRefill == r.now
            && (forall c | c in after.buckets && c != r.client :: after.buckets[c] == t.buckets[c])
            && (full ==> r.victim in stay
                         && forall c | c in stay :: t.buckets[r.victim].lastRefill <= t.buckets[c].lastRefill)
  {
    var kept := Kept(true, t, r.now);
    var room := if MustEvict(cfg, kept, r.client) then kept - {r.victim} else kept;
    KeptIsExact(t, r.now);
    SpendIsExact(cfg, room, r.client, r.now);
    hide TableInv; hide Kept; hide Spend;
    assert |kept| == |kept.Keys| && (kept == map[] <==> kept.Keys == {});
    assert room.Keys == kept.Keys - if MustEvict(cfg, kept, r.client) then {r.victim} else {};
  }

  lemma KeptIsExact(t: Table, now: real)
    ensures var kept := Kept(true, t, now);
            && kept.Keys == (set c | c in t.buckets
                               && ((t.checks + 1) % 100 != 0 || now - t.buckets[c].lastRefill < 300.0))
            && forall c | c in kept :: kept[c] == t.buckets[c]
  {
  }

  lemma SpendIsExact(cfg: Config, room: map<Client, Bucket>, client: Client, now: real)
    ensures var after := Spend(cfg, room, client, now).0;
            && after.Keys == room.Keys + {client} && after[client].lastRefill == now
            && forall c | c in room && c != client :: after[c] == room[c]
  {
  }

  lemma {:induction false} AdmittedWithinLevels(cfg: Config, t: Table, client: Client, from: real,
                                                requests: seq<Request>)
    requires cfg.rate > 0 && cfg.maxBuckets > 0 && TableInv(cfg, t.buckets, from)
    requires Legal(cfg, true, t, from, requests)
    ensures from <= End(from, requests)
    ensures TableInv(cfg, After(cfg, t, requests).buckets, End(from, requests))
    ensures Admitted(cfg, t, client, requests) as real
            + Level(cfg, After(cfg, t, requests).buckets, client, End(from, requests))
         <= Level(cfg, t.buckets, client, from) + Times(Capacity(cfg), Evictions(cfg, t, client, requests))
            + Refill(cfg, End(from, requests) - from)
    decreases |requests|
  {
    hide TableInv; hide Level; hide Refill; hide Check; hide Kept; hide MustEvict; hide Oldest; hide Capacity;
    if requests == [] {
      NoRefill(cfg);
    } else {
      var r := requests[0];
      var t' := Check(cfg, true, t, r.client, r.now, r.victim).0;
      CheckLevel(cfg, t, client, from, r);
      AdmittedWithinLevels(cfg, t', client, r.now, requests[1..]);
      assert End(from, requests) == End(r.now, requests[1..]);
      RefillAdds(cfg, r.now - from, End(from, requests) - r.now);
      LevelRisesFrom(cfg, t.buckets, client, from, r.now);
    }
  }

  lemma NoRefill(cfg: Config)
    ensures Refill(cfg, 0.0) == 0.0
  {
  }

  lemma LevelRisesFrom(cfg: Config, buckets: map<Client, Bucket>, client: Client, now: real, later: real)
    requires TableInv(cfg, buckets, now) && now <= later
    ensures Level(cfg, buckets, client, later) <= Level(cfg, buckets, client, now) + Refill(cfg, later - now)
  {
    LevelRises(cfg, buckets, client, now, later);
  }

  /** Over any stretch of requests, a client gets at most its capacity, what the time refills, and one more
      capacity for each time its bucket was thrown out by the size limit. Idle clean-up gives nothing away. */
  lemma AdmissionBound(cfg: Config, t: Table, client: Client, from: real, requests: seq<Request>)
    requires cfg.rate > 0 && cfg.maxBuckets > 0 && TableInv(cfg, t.buckets, from)
    requires Legal(cfg, true, t, from, requests)
    ensures Admitted(cfg, t, client, requests) as real
         <= Capacity(cfg) * ((1 + Evictions(cfg, t, client, requests)) as real)
            + (cfg.rate as real) * (End(from, requests) - from) / 60.0
  {
    hide TableInv; hide Level; hide Refill; hide Admitted; hide Evictions; hide Legal; hide After; hide End;
    hide Capacity; hide Times;
    AdmittedWithinLevels(cfg, t, client, from, requests);
    var end, n := End(from, requests), Evictions(cfg, t, client, requests);
    LevelInRange(cfg, After(cfg, t, requests).buckets, client, end);
    LevelInRange(cfg, t.buckets, client, from);
    RefillIsRate(cfg, end - from);
    TimesIsProduct(Capacity(cfg), n);
    assert Admitted(cfg, t, client, requests) as real
        <= Capacity(cfg) + Times(Capacity(cfg), n) + Refill(cfg, end - from);
  }

  function Times(x: real, n: nat): real {
    if n == 0 then 0.0 else Times(x, n - 1) + x
  }

  lemma {:induction false} TimesIsProduct(x: real, n: nat)
    ensures Times(x, n) == x * (n as real) && x * ((1 + n) as real) == x + Times(x, n)
  {
    if n > 0 { TimesIsProduct(x, n - 1); }
  }

  lemma RefillIsRate(cfg: Config, seconds: real)
    requires seconds >= 0.0
    ensures Refill(cfg, seconds) == (cfg.rate as real) * seconds / 60.0
  {
  }

  // ── Nobody is starved ─────────────────────────────────────────

  /** Requests that `client` made. */
  function Asked(client: Client, requests: seq<Request>): nat {
    if requests == [] then 0 else (if requests[0].client == client then 1 else 0) + Asked(client, requests[1..])
  }

  /** The table's size limit never throws `client`'s bucket out. */
  predicate NeverEvicted(cfg: Config, t: Table, client: Client, requests: seq<Request>)
    decreases |requests|
  {
    requests == [] ||
    var r := requests[0];
    && !Evicted(cfg, t, client, r)
    && NeverEvicted(cfg, Check(cfg, true, t, r.client, r.now, r.victim).0, client, requests[1..])
  }

  lemma {:induction false} LegalTimes(cfg: Config, t: Table, from: real, requests: seq<Request>)
    requires Legal(cfg, true, t, from, requests)
    ensures forall i | 0 <= i < |requests| :: from <= requests[i].now
    decreases |requests|
  {
    if requests != [] {
      var r := requests[0];
      LegalTimes(cfg, Check(cfg, true, t, r.client, r.now, r.victim).0, r.now, requests[1..]);
      forall i | 0 <= i < |requests| ensures from <= requests[i].now {
        if i > 0 { assert requests[i] == requests[1..][i - 1]; }
      }
    }
  }

  lemma {:induction false} UnlimitedAdmits(cfg: Config, t: Table, client: Client, requests: seq<Request>)
    requires cfg.rate == 0
    ensures Admitted(cfg, t, client, requests) == Asked(client, requests)
    decreases |requests|
  {
    if requests != [] { UnlimitedAdmits(cfg, t, client, requests[1..]); }
  }

  lemma {:induction false} LevelIsAdmitted(cfg: Config, t: Table, client: Client, from: real, requests: seq<Request>)
    requires cfg.rate > 0 && cfg.maxBuckets > 0 && TableInv(cfg, t.buckets, from)
    requires Legal(cfg, true, t, from, requests) && NeverEvicted(cfg, t, client, requests)
    requires Asked(client, requests) as real <= Level(cfg, t.buckets, client, from)
    ensures Admitted(cfg, t, client, requests) == Asked(client, requests)
    decreases |requests|
  {
    hide TableInv; hide Level; hide Refill; hide Capacity; hide Check; hide Evicted; hide MustEvict;
    if requests != [] {
      var r := requests[0];
      Waited(cfg, t, client, from, r.now);
      CheckLevel(cfg, t, client, from, r);
      LevelIsAdmitted(cfg, Check(cfg, true, t, r.client, r.now, r.victim).0, client, r.now, requests[1..]);
    }
  }

  lemma Waited(cfg: Config, t: Table, client: Client, from: real, now: real)
    requires TableInv(cfg, t.buckets, from) && from <= now
    ensures var raised := Level(cfg, t.buckets, client, from) + Refill(cfg, now - from);
            Level(cfg, t.buckets, client, now) == if raised < Capacity(cfg) then raised else Capacity(cfg)
    ensures Level(cfg, t.buckets, client, from) <= Level(cfg, t.buckets, client, now)
  {
    LevelRises(cfg, t.buckets, client, from, now);
  }

  /** A burst: a client with a full bucket, or none, has every one of its next `rate` requests admitted, at whatever
      times and among whatever others, as long as its bucket is not thrown out. */
  lemma BurstIsAdmitted(cfg: Config, t: Table, client: Client, from: real, requests: seq<Request>)
    requires cfg.maxBuckets > 0 && TableInv(cfg, t.buckets, from)
    requires Legal(cfg, true, t, from, requests) && NeverEvicted(cfg, t, client, requests)
    requires client in t.buckets ==> t.buckets[client].tokens == cfg.rate as real
    requires cfg.rate > 0 ==> Asked(client, requests) <= cfg.rate
    ensures Admitted(cfg, t, client, requests) == Asked(client, requests)
  {
    if cfg.rate == 0 {
      UnlimitedAdmits(cfg, t, client, requests);
    } else {
      if client in t.buckets { RefillAdds(cfg, 0.0, from - t.buckets[client].lastRefill); }
      LevelIsAdmitted(cfg, t, client, from, requests);
    }
  }

  /** Successive requests of `client` leave a minute divided by the rate between them. */
  ghost predicate Paced(cfg: Config, client: Client, requests: seq<Request>)
    requires cfg.rate > 0
  {
    forall i, j | 0 <= i < j < |requests| && requests[i].client == client && requests[j].client == client ::
      requests[j].now - requests[i].now >= 60.0 / cfg.rate as real
  }

  /** At the time of each of its requests, `level` will have grown to a token. */
  ghost predicate Due(cfg: Config, level: real, from: real, client: Client, requests: seq<Request>) {
    forall i | 0 <= i < |requests| && requests[i].client == client ::
      level + Refill(cfg, requests[i].now - from) >= 1.0
  }

  lemma PauseRefills(cfg: Config, seconds: real)
    requires cfg.rate > 0 && seconds >= 60.0 / cfg.rate as real
    ensures Refill(cfg, seconds) >= 1.0
  {
    var pause := 60.0 / cfg.rate as real;
    RefillAdds(cfg, pause, seconds - pause);
    RefillIsRate(cfg, pause);
    assert cfg.rate as real * pause == 60.0;
  }

  lemma StillDue(cfg: Config, t: Table, client: Client, from: real, requests: seq<Request>)
    requires cfg.rate > 0 && cfg.maxBuckets > 0 && TableInv(cfg, t.buckets, from) && requests != []
    requires Legal(cfg, true, t, from, requests) && NeverEvicted(cfg, t, client, requests)
    requires Paced(cfg, client, requests) && Due(cfg, Level(cfg, t.buckets, client, from), from, client, requests)
    ensures var r := requests[0];
            var (t', ok) := Check(cfg, true, t, r.client, r.now, r.victim);
            && (r.client == client ==> ok)
            && Due(cfg, Level(cfg, t'.buckets, client, r.now), r.now, client, requests[1..])
  {
    hide TableInv; hide Level; hide Refill; hide Capacity; hide Check; hide Evicted; hide MustEvict;
    var r := requests[0];
    var t' := Check(cfg, true, t, r.client, r.now, r.victim).0;
    LegalTimes(cfg, t', r.now, requests[1..]);
    Waited(cfg, t, client, from, r.now);
    CheckLevel(cfg, t, client, from, r);
    AtLeastOne(cfg);
    var level, level' := Level(cfg, t.buckets, client, from), Level(cfg, t'.buckets, client, r.now);
    hide Legal; hide NeverEvicted;
    forall i | 0 <= i < |requests[1..]| && requests[1..][i].client == client
      ensures level' + Refill(cfg, requests[1..][i].now - r.now) >= 1.0
    {
      assert requests[i + 1] == requests[1..][i];
      if r.client == client {
        PauseRefills(cfg, requests[i + 1].now - r.now);
      } else {
        DueLater(cfg, level, from, r.now, requests[i + 1].now);
      }
    }
  }

  lemma AtLeastOne(cfg: Config)
    requires cfg.rate > 0
    ensures Capacity(cfg) >= 1.0
  {
  }

  /** What will have grown to a token by `next` has, once raised to `now`, still to grow as much. */
  lemma DueLater(cfg: Config, level: real, from: real, now: real, next: real)
    requires from <= now <= next && cfg.rate > 0 && level + Refill(cfg, next - from) >= 1.0
    ensures var raised := level + Refill(cfg, now - from);
            (if raised < Capacity(cfg) then raised else Capacity(cfg)) + Refill(cfg, next - now) >= 1.0
  {
    RefillAdds(cfg, now - from, next - now);
  }

  lemma {:induction false} DueIsAdmitted(cfg: Config, t: Table, client: Client, from: real, requests: seq<Request>)
    requires cfg.rate > 0 && cfg.maxBuckets > 0 && TableInv(cfg, t.buckets, from)
    requires Legal(cfg, true, t, from, requests) && NeverEvicted(cfg, t, client, requests)
    requires Paced(cfg, client, requests) && Due(cfg, Level(cfg, t.buckets, client, from), from, client, requests)
    ensures Admitted(cfg, t, client, requests) == Asked(client, requests)
    decreases |requests|
  {
    hide TableInv; hide Level; hide Refill; hide Capacity; hide Check; hide Evicted; hide MustEvict; hide Due;
    if requests != [] {
      var r := requests[0];
      StillDue(cfg, t, client, from, requests);
      CheckLevel(cfg, t, client, from, r);
      forall i, j | 0 <= i < j < |requests[1..]|
        ensures requests[1..][i] == requests[i + 1] && requests[1..][j] == requests[j + 1] {}
      assert Paced(cfg, client, requests[1..]);
      DueIsAdmitted(cfg, Check(cfg, true, t, r.client, r.now, r.victim).0, client, r.now, requests[1..]);
    }
  }

  /** A steady pace: a client that has a token and leaves 60/rate seconds between its requests is never refused, for
      however long and among whatever others, as long as its bucket is not thrown out. */
  lemma PacedIsAdmitted(cfg: Config, t: Table, client: Client, from: real, requests: seq<Request>)
    requires cfg.rate > 0 && cfg.maxBuckets > 0 && TableInv(cfg, t.buckets, from)
    requires Legal(cfg, true, t, from, requests) && NeverEvicted(cfg, t, client, requests)
    requires client in t.buckets ==> t.buckets[client].tokens >= 1.0
    requires Paced(cfg, client, requests)
    ensures Admitted(cfg, t, client, requests) == Asked(client, requests)
  {
    hide Level; hide Refill; hide Capacity; hide Legal; hide NeverEvicted; hide Paced; hide Admitted; hide Asked;
    LegalTimes(cfg, t, from, requests);
    TokenIsLevel(cfg, t.buckets, client, from);
    forall i | 0 <= i < |requests| ensures Refill(cfg, requests[i].now - from) >= 0.0 {
      RefillAdds(cfg, 0.0, requests[i].now - from);
    }
    DueIsAdmitted(cfg, t, client, from, requests);
  }

  lemma TokenIsLevel(cfg: Config, buckets: map<Client, Bucket>, client: Client, now: real)
    requires cfg.rate > 0 && TableInv(cfg, buckets, now)
    requires client in buckets ==> buckets[client].tokens >= 1.0
    ensures Level(cfg, buckets, client, now) >= 1.0
  {
    if client in buckets { RefillAdds(cfg, 0.0, now - buckets[client].lastRefill); }
  }

  // ── Clean-up is invisible ─────────────────────────────────────

  ghost predicate SameLevels(cfg: Config, a: map<Client, Bucket>, b: map<Client, Bucket>, now: real) {
    forall c, later: real | now <= later :: Level(cfg, a, c, later) == Level(cfg, b, c, later)
  }

  lemma NoEviction(cfg: Config, buckets: map<Client, Bucket>, client: Client, clients: set<Client>)
    requires buckets.Keys <= clients && client in clients && |clients| <= cfg.maxBuckets
    ensures !MustEvict(cfg, buckets, client)
  {
    if client !in buckets {
      SubsetSize(buckets.Keys, clients - {client});
      assert |buckets| == |buckets.Keys|;
    }
  }

  lemma SpendAlike(cfg: Config, a: map<Client, Bucket>, b: map<Client, Bucket>, client: Client, now: real)
    requires SameLevels(cfg, a, b, now)
    ensures Spend(cfg, a, client, now).1 == Spend(cfg, b, client, now).1
    ensures SameLevels(cfg, Spend(cfg, a, client, now).0, Spend(cfg, b, client, now).0, now)
  {
    var a', b' := Spend(cfg, a, client, now).0, Spend(cfg, b, client, now).0;
    assert Level(cfg, a, client, now) == Level(cfg, b, client, now);
    forall c, later: real | now <= later ensures Level(cfg, a', c, later) == Level(cfg, b', c, later) {
      if c != client {
        assert Level(cfg, a', c, later) == Level(cfg, a, c, later);
        assert Level(cfg, b', c, later) == Level(cfg, b, c, later);
      }
    }
  }

  lemma SweepAlike(cfg: Config, t: Table, keep: map<Client, Bucket>, before: real, now: real)
    requires SameLevels(cfg, t.buckets, keep, before) && TableInv(cfg, t.buckets, before) && before <= now
    ensures SameLevels(cfg, Kept(true, t, now), keep, now)
  {
    forall c, later: real | now <= later
      ensures Level(cfg, Kept(true, t, now), c, later) == Level(cfg, keep, c, later)
    {
      SweepKeepsLevels(cfg, t.buckets, now, c, later);
      assert Level(cfg, t.buckets, c, later) == Level(cfg, keep, c, later);
    }
  }

  /** While no more clients are about than the table holds, the limiter that drops idle buckets answers every
      sequence of requests exactly as one that never drops any. */
  lemma {:induction false} CleanUpIsInvisible(cfg: Config, lazy: Table, keep: Table, from: real,
                                              requests: seq<Request>, clients: set<Client>)
    requires 0 < |clients| <= cfg.maxBuckets
    requires lazy.buckets.Keys <= clients && keep.buckets.Keys <= clients
    requires forall r | r in requests :: r.client in clients
    requires TableInv(cfg, lazy.buckets, from) && SameLevels(cfg, lazy.buckets, keep.buckets, from)
    requires Legal(cfg, true, lazy, from, requests)
    ensures Answers(cfg, true, lazy, requests) == Answers(cfg, false, keep, requests)
    decreases |requests|
  {
    hide TableInv; hide SameLevels; hide MustEvict; hide Spend; hide Oldest;
    if requests != [] && cfg.rate > 0 {
      var r := requests[0];
      var kept := Kept(true, lazy, r.now);
      assert kept.Keys <= lazy.buckets.Keys;
      NoEviction(cfg, kept, r.client, clients);
      NoEviction(cfg, keep.buckets, r.client, clients);
      SweepAlike(cfg, lazy, keep.buckets, from, r.now);
      SpendAlike(cfg, kept, keep.buckets, r.client, r.now);
      CheckKeepsInv(cfg, true, lazy, r.client, from, r.now, r.victim);
      SpendIsExact(cfg, kept, r.client, r.now);
      SpendIsExact(cfg, keep.buckets, r.client, r.now);
      var lazy' := Check(cfg, true, lazy, r.client, r.now, r.victim).0;
      var keep' := Check(cfg, false, keep, r.client, r.now, r.victim).0;
      CleanUpIsInvisible(cfg, lazy', keep', r.now, requests[1..], clients);
    } else if requests != [] {
      var r := requests[0];
      LaterLevels(cfg, lazy.buckets, keep.buckets, from, r.now);
      CleanUpIsInvisible(cfg, lazy, keep, r.now, requests[1..], clients);
    }
  }

  lemma LaterLevels(cfg: Config, a: map<Client, Bucket>, b: map<Client, Bucket>, now: real, later: real)
    requires TableInv(cfg, a, now) && SameLevels(cfg, a, b, now) && now <= later
    ensures TableInv(cfg, a, later) && SameLevels(cfg, a, b, later)
  {
  }
}
