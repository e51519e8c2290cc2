/** The per-client token bucket and its janitor. Evicting idle buckets is invisible exactly when an
    entry lives long enough for its bucket to refill. */
module Limiter {

  /** A token bucket in exact arithmetic, as the rate library keeps it: a refused request changes
      nothing. */
  datatype Bucket = Bucket(tokens: real, last: real)

  datatype Entry = Entry(bucket: Bucket, lastSeen: real)

  datatype Settings = Settings(rps: real, burst: nat, ttl: real) {
    /** What the server's configuration insists on. */
    predicate Valid() {
      rps > 0.0 && burst >= 1 && ttl > 0.0
    }
  }

  type Entries = map<string, Entry>

  /** The tokens that accrue from one reading to another. */
  function Earned(c: Settings, from: real, to: real): real {
    if to > from then c.rps * (to - from) else 0.0
  }

  function Refilled(c: Settings, b: Bucket, now: real): real {
    var tokens := b.tokens + Earned(c, b.last, now);
    if tokens > c.burst as real then c.burst as real else tokens
  }

  function Spend(c: Settings, b: Bucket, now: real): (bool, Bucket) {
    if Refilled(c, b, now) >= 1.0 then (true, Bucket(Refilled(c, b, now) - 1.0, now)) else (false, b)
  }

  function EntryFor(c: Settings, ips: Entries, ip: string, now: real): Entry {
    if ip in ips then ips[ip].(lastSeen := now) else Entry(Bucket(c.burst as real, now), now)
  }

  function AllowStep(c: Settings, ips: Entries, ip: string, now: real): (bool, Entries) {
    var e := EntryFor(c, ips, ip, now);
    var (ok, bucket) := Spend(c, e.bucket, now);
    (ok, ips[ip := e.(bucket := bucket)])
  }

  predicate Expired(c: Settings, e: Entry, now: real) {
    now - e.lastSeen >= c.ttl
  }

  function SweepStep(c: Settings, ips: Entries, now: real): Entries {
    map ip | ip in ips && !Expired(c, ips[ip], now) :: ips[ip]
  }

  class RateLimiter {
    const settings: Settings
    var ips: Entries

    constructor (settings: Settings)
      ensures this.settings == settings && ips == map[]
    {
      this.settings := settings;
      ips := map[];
    }

    method Allow(ip: string, now: real) returns (ok: bool)
      modifies this`ips
      ensures (ok, ips) == AllowStep(settings, old(ips), ip, now)
    {
      var e: Entry;
      if ip !in ips {
        e := Entry(Bucket(settings.burst as real, now), now);
      } else {
        e := ips[ip].(lastSeen := now);
      }
      var tokens := Refilled(settings, e.bucket, now);
      ok := tokens >= 1.0;
      if ok {
        e := e.(bucket := Bucket(tokens - 1.0, now));
      }
      ips := ips[ip := e];
    }

    method Sweep(now: real)
      modifies this`ips
      ensures forall ip :: ip in ips <==> ip in old(ips) && now - old(ips)[ip].lastSeen < settings.ttl
      ensures forall ip <- ips :: ips[ip] == old(ips)[ip]
      ensures ips == SweepStep(settings, old(ips), now)
    {
      var left := ips.Keys;
      while left != {}
        invariant left <= old(ips).Keys
        invariant forall ip :: ip in ips <==> ip in old(ips) && (ip in left || !Expired(settings, old(ips)[ip], now))
        invariant forall ip <- ips :: ips[ip] == old(ips)[ip]
        decreases left
      {
        var ip :| ip in left;
        if now - ips[ip].lastSeen >= settings.ttl {
          ips := ips - {ip};
        }
        left := left - {ip};
      }
    }
  }

  // ----- Runs of requests and sweeps

  datatype Op = Request(ip: string, at: real) | Janitor(at: real)

  /** One operation; without eviction the janitor does nothing. */
  function Apply(c: Settings, ips: Entries, op: Op, evict: bool): (bool, Entries) {
    match op
    case Request(ip, at) => AllowStep(c, ips, ip, at)
    case Janitor(at) => (false, if evict then SweepStep(c, ips, at) else ips)
  }

  /** The answer to each operation in turn. */
  function Answers(c: Settings, ips: Entries, ops: seq<Op>, evict: bool): (answers: seq<bool>)
    ensures |answers| == |ops|
    decreases |ops|
  {
    if ops == [] then []
    else
      var (ok, next) := Apply(c, ips, ops[0], evict);
      [ok] + Answers(c, next, ops[1..], evict)
  }

  /** The latest clock reading there is after an operation. */
  function Clock(now: real, op: Op): real {
    if op.at > now then op.at else now
  }

  /** Requests read the clock in order, from `start` on. A sweep works with the time of its tick,
      which may lie before requests already served. */
  ghost predicate Monotone(start: real, ops: seq<Op>)
    decreases |ops|
  {
    if ops == [] then true
    else (ops[0].Request? ==> start <= ops[0].at) && Monotone(Clock(start, ops[0]), ops[1..])
  }

  lemma {:induction false} MonotoneEarlier(early: real, start: real, ops: seq<Op>)
    requires early <= start && Monotone(start, ops)
    ensures Monotone(early, ops)
    decreases |ops|
  {
    if ops != [] {
      MonotoneEarlier(Clock(early, ops[0]), Clock(start, ops[0]), ops[1..]);
    }
  }

  /** A sweep forgets exactly the clients not seen for a ttl or longer, and touches no other. */
  lemma SweepForgets(c: Settings, ips: Entries, now: real, ip: string)
    ensures ip in SweepStep(c, ips, now) <==> ip in ips && now - ips[ip].lastSeen < c.ttl
    ensures ip in SweepStep(c, ips, now) ==> SweepStep(c, ips, now)[ip] == ips[ip]
  {
  }

  // ----- State by state

  /** The entries after some operations. */
  function After(c: Settings, ips: Entries, ops: seq<Op>, evict: bool): Entries {
    if ops == [] then ips else Apply(c, After(c, ips, ops[..|ops| - 1], evict), ops[|ops| - 1], evict).1
  }

  lemma {:induction false} AfterFirst(c: Settings, ips: Entries, ops: seq<Op>, evict: bool)
    requires ops != []
    ensures After(c, ips, ops, evict) == After(c, Apply(c, ips, ops[0], evict).1, ops[1..], evict)
    decreases |ops|
  {
    if |ops| > 1 {
      AfterFirst(c, ips, ops[..|ops| - 1], evict);
      assert ops[1..][..|ops[1..]| - 1] == ops[..|ops| - 1][1..];
    }
  }

  /** The last answer of a run is given on the entries the run has led to. */
  lemma {:induction false} AnswersSnoc(c: Settings, ips: Entries, ops: seq<Op>, op: Op, evict: bool)
    ensures Answers(c, ips, ops + [op], evict)
         == Answers(c, ips, ops, evict) + [Apply(c, After(c, ips, ops, evict), op, evict).0]
    decreases |ops|
  {
    if ops == [] {
      assert [] + [op] == [op];
    } else {
      var next := Apply(c, ips, ops[0], evict).1;
      AnswersSnoc(c, next, ops[1..], op, evict);
      AfterFirst(c, ips, ops, evict);
      assert (ops + [op])[1..] == ops[1..] + [op];
    }
  }

  // ----- Eviction transparency

  ghost predicate BucketOk(c: Settings, e: Entry, now: real) {
    0.0 <= e.bucket.tokens <= c.burst as real && e.bucket.last <= e.lastSeen <= now
  }

  /** The evicting map is the other one minus some buckets that are full by now. */
  ghost predicate Related(c: Settings, ips: Entries, all: Entries, now: real) {
    && (forall ip <- all :: BucketOk(c, all[ip], now))
    && (forall ip <- ips :: ip in all && ips[ip] == all[ip])
    && (forall ip <- all :: ip !in ips ==> Refilled(c, all[ip].bucket, now) == c.burst as real)
  }

  lemma EarnedIs(c: Settings, from: real, to: real)
    requires c.Valid() && from <= to
    ensures Earned(c, from, to) == c.rps * (to - from) >= 0.0
  {
    if from == to {
      assert c.rps * (to - from) == 0.0;
    }
  }

  lemma EarnedSplit(c: Settings, from: real, mid: real, to: real)
    requires c.Valid() && from <= mid <= to
    ensures Earned(c, from, to) == Earned(c, from, mid) + Earned(c, mid, to)
    ensures Earned(c, from, mid) >= 0.0 && Earned(c, mid, to) >= 0.0
  {
    EarnedIs(c, from, mid);
    EarnedIs(c, mid, to);
    EarnedIs(c, from, to);
    assert c.rps * (to - from) == c.rps * (mid - from) + c.rps * (to - mid);
  }

  lemma LongerIsFuller(c: Settings, b: Bucket, now: real, later: real)
    requires c.Valid() && b.last <= now <= later
    ensures Refilled(c, b, now) <= Refilled(c, b, later)
  {
    EarnedSplit(c, b.last, now, later);
  }

  lemma EarnedOverTtl(c: Settings, from: real, to: real)
    requires c.Valid() && to - from >= c.ttl && c.ttl * c.rps >= c.burst as real
    ensures Earned(c, from, to) >= c.burst as real
  {
    EarnedSplit(c, from, from + c.ttl, to);
    EarnedIs(c, from, from + c.ttl);
    assert from + c.ttl - from == c.ttl;
  }

  lemma IdleIsFull(c: Settings, e: Entry, now: real)
    requires c.Valid() && c.ttl * c.rps >= c.burst as real && BucketOk(c, e, now) && Expired(c, e, now)
    ensures Refilled(c, e.bucket, now) == c.burst as real
  {
    EarnedOverTtl(c, e.bucket.last, now);
  }

  lemma SpendOk(c: Settings, e: Entry, before: real, now: real)
    requires c.Valid() && BucketOk(c, e, before) && before <= now
    ensures BucketOk(c, e.(lastSeen := now, bucket := Spend(c, e.bucket, now).1), now)
  {
  }

  lemma RelatedLater(c: Settings, ips: Entries, all: Entries, now: real, later: real)
    requires c.Valid() && Related(c, ips, all, now) && now <= later
    ensures Related(c, ips, all, later)
  {
    forall ip <- all | ip !in ips
      ensures Refilled(c, all[ip].bucket, later) == c.burst as real
    {
      LongerIsFuller(c, all[ip].bucket, now, later);
    }
  }

  lemma AllowRelated(c: Settings, ips: Entries, all: Entries, ip: string, now: real)
    requires c.Valid() && Related(c, ips, all, now)
    ensures AllowStep(c, ips, ip, now).0 == AllowStep(c, all, ip, now).0
    ensures Related(c, AllowStep(c, ips, ip, now).1, AllowStep(c, all, ip, now).1, now)
  {
    var full := Bucket(c.burst as real, now);
    assert Refilled(c, full, now) == c.burst as real;
    if ip in all {
      SpendOk(c, all[ip], now, now);
    }
  }

  lemma SweepRelated(c: Settings, ips: Entries, all: Entries, now: real, tick: real)
    requires c.Valid() && c.ttl * c.rps >= c.burst as real && Related(c, ips, all, now) && tick <= now
    ensures Related(c, SweepStep(c, ips, tick), all, now)
  {
    forall ip <- all | ip !in SweepStep(c, ips, tick)
      ensures Refilled(c, all[ip].bucket, now) == c.burst as real
    {
      if ip in ips {
        IdleIsFull(c, ips[ip], now);
      }
    }
  }

  lemma {:induction false} SameAnswers(c: Settings, ips: Entries, all: Entries, now: real, ops: seq<Op>)
    requires c.Valid() && c.ttl * c.rps >= c.burst as real
    requires Related(c, ips, all, now) && Monotone(now, ops)
    ensures Answers(c, ips, ops, true) == Answers(c, all, ops, false)
    decreases |ops|
  {
    if ops != [] {
      var at := Clock(now, ops[0]);
      RelatedLater(c, ips, all, now, at);
      if ops[0].Request? {
        AllowRelated(c, ips, all, ops[0].ip, at);
      } else {
        SweepRelated(c, ips, all, at, ops[0].at);
      }
      SameAnswers(c, Apply(c, ips, ops[0], true).1, Apply(c, all, ops[0], false).1, at, ops[1..]);
    }
  }

  // ----- ... and only then

  /** `n` requests by one client at one instant. */
  function Burst(ip: string, at: real, n: nat): (ops: seq<Op>)
    ensures |ops| == n
  {
    if n == 0 then [] else [Request(ip, at)] + Burst(ip, at, n - 1)
  }

  function AfterBurst(c: Settings, ips: Entries, ip: string, at: real, n: nat): Entries
    decreases n
  {
    if n == 0 then ips else AfterBurst(c, AllowStep(c, ips, ip, at).1, ip, at, n - 1)
  }

  /** The tokens a client would find now. */
  function Balance(c: Settings, ips: Entries, ip: string, now: real): real {
    Refilled(c, EntryFor(c, ips, ip, now).bucket, now)
  }

  /** A request is admitted exactly if there is a token for it, and takes that token. */
  lemma BalanceAfter(c: Settings, ips: Entries, ip: string, now: real)
    requires 0.0 <= Balance(c, ips, ip, now)
    ensures var (ok, next) := AllowStep(c, ips, ip, now);
      (ok <==> Balance(c, ips, ip, now) >= 1.0)
      && Balance(c, next, ip, now) == Balance(c, ips, ip, now) - if ok then 1.0 else 0.0
  {
  }

  lemma {:induction false} BurstSpends(c: Settings, ips: Entries, ip: string, at: real, n: nat)
    requires Balance(c, ips, ip, at) >= n as real
    ensures var after := AfterBurst(c, ips, ip, at, n);
      && Balance(c, after, ip, at) == Balance(c, ips, ip, at) - n as real
      && (n > 0 ==> ip in after && after[ip] == Entry(Bucket(Balance(c, ips, ip, at) - n as real, at), at))
    decreases n
  {
    if n > 0 {
      BalanceAfter(c, ips, ip, at);
      var next := AllowStep(c, ips, ip, at).1;
      BurstSpends(c, next, ip, at, n - 1);
    }
  }

  function Yes(n: nat): (answers: seq<bool>)
    ensures |answers| == n && forall i :: 0 <= i < n ==> answers[i]
  {
    seq(n, i => true)
  }

  lemma BurstTail(ip: string, at: real, n: nat, rest: seq<Op>)
    requires n > 0
    ensures (Burst(ip, at, n) + rest)[0] == Request(ip, at)
    ensures (Burst(ip, at, n) + rest)[1..] == Burst(ip, at, n - 1) + rest
  {
  }

  lemma FirstAnswer(c: Settings, ips: Entries, ops: seq<Op>, evict: bool, ok: bool, next: Entries)
    requires ops != [] && (ok, next) == Apply(c, ips, ops[0], evict)
    ensures Answers(c, ips, ops, evict) == [ok] + Answers(c, next, ops[1..], evict)
  {
  }

  lemma BurstAnswers(
    c: Settings, ips: Entries, ip: string, at: real, n: nat, rest: seq<Op>, evict: bool, ok: bool, next: Entries)
    requires n > 0 && (ok, next) == AllowStep(c, ips, ip, at)
    ensures Answers(c, ips, Burst(ip, at, n) + rest, evict) == [ok] + Answers(c, next, Burst(ip, at, n - 1) + rest, evict)
  {
    BurstTail(ip, at, n, rest);
    FirstAnswer(c, ips, Burst(ip, at, n) + rest, evict, ok, next);
  }

  lemma YesCons(n: nat, answers: seq<bool>)
    requires n > 0
    ensures Yes(n) + answers == [true] + (Yes(n - 1) + answers)
  {
  }

  lemma {:induction false} BurstPasses(c: Settings, ips: Entries, ip: string, at: real, n: nat, rest: seq<Op>, evict: bool)
    requires Balance(c, ips, ip, at) >= n as real
    ensures Answers(c, ips, Burst(ip, at, n) + rest, evict)
         == Yes(n) + Answers(c, AfterBurst(c, ips, ip, at, n), rest, evict)
    decreases n
  {
    if n == 0 {
      assert Burst(ip, at, n) + rest == rest;
    } else {
      var (ok, next) := AllowStep(c, ips, ip, at);
      BalanceAfter(c, ips, ip, at);
      BurstPasses(c, next, ip, at, n - 1, rest, evict);
      BurstAnswers(c, ips, ip, at, n, rest, evict, ok, next);
      YesCons(n, Answers(c, AfterBurst(c, next, ip, at, n - 1), rest, evict));
    }
  }

  /** With fewer tokens than requests, the last of a burst is refused. */
  lemma {:induction false} BurstFails(c: Settings, ips: Entries, ip: string, at: real, n: nat, evict: bool)
    requires n > 0 && 0.0 <= Balance(c, ips, ip, at) < n as real
    ensures !Answers(c, ips, Burst(ip, at, n), evict)[n - 1]
    decreases n
  {
    BalanceAfter(c, ips, ip, at);
    if n > 1 {
      BurstFails(c, AllowStep(c, ips, ip, at).1, ip, at, n - 1, evict);
    }
  }

  /** Spend the whole burst at time 0, sweep after one ttl, spend it again. */
  function Probe(c: Settings): seq<Op> {
    Burst("x", 0.0, c.burst) + ([Janitor(c.ttl)] + Burst("x", c.ttl, c.burst))
  }

  lemma {:induction false} BurstMonotone(start: real, ip: string, at: real, n: nat, rest: seq<Op>)
    requires start <= at && Monotone(at, rest)
    ensures Monotone(start, Burst(ip, at, n) + rest)
    decreases n
  {
    var ops := Burst(ip, at, n) + rest;
    if n == 0 {
      assert ops == rest;
      MonotoneEarlier(start, at, rest);
    } else {
      assert ops[1..] == Burst(ip, at, n - 1) + rest;
      BurstMonotone(at, ip, at, n - 1, rest);
    }
  }

  lemma ProbeMonotone(c: Settings)
    requires c.Valid()
    ensures Monotone(0.0, Probe(c))
  {
    var second := Burst("x", c.ttl, c.burst);
    BurstMonotone(c.ttl, "x", c.ttl, c.burst, []);
    assert second + [] == second;
    var rest := [Janitor(c.ttl)] + second;
    assert rest[1..] == second;
    BurstMonotone(0.0, "x", 0.0, c.burst, rest);
  }

  lemma ProbeRest(c: Settings, ips: Entries, evict: bool)
    ensures Answers(c, ips, [Janitor(c.ttl)] + Burst("x", c.ttl, c.burst), evict)
         == [false] + Answers(c, Apply(c, ips, Janitor(c.ttl), evict).1, Burst("x", c.ttl, c.burst), evict)
  {
    assert ([Janitor(c.ttl)] + Burst("x", c.ttl, c.burst))[1..] == Burst("x", c.ttl, c.burst);
  }

  lemma ProbeTellsApart(c: Settings)
    requires c.Valid() && c.ttl * c.rps < c.burst as real
    ensures Answers(c, map[], Probe(c), true) != Answers(c, map[], Probe(c), false)
  {
    var n := c.burst;
    var rest := [Janitor(c.ttl)] + Burst("x", c.ttl, n);
    BurstPasses(c, map[], "x", 0.0, n, rest, true);
    BurstPasses(c, map[], "x", 0.0, n, rest, false);
    BurstSpends(c, map[], "x", 0.0, n);
    var spent := AfterBurst(c, map[], "x", 0.0, n);
    ProbeRest(c, spent, true);
    ProbeRest(c, spent, false);
    var swept := SweepStep(c, spent, c.ttl);
    assert "x" !in swept;
    BurstPasses(c, swept, "x", c.ttl, n, [], true);
    assert Burst("x", c.ttl, n) + [] == Burst("x", c.ttl, n);
    EarnedIs(c, 0.0, c.ttl);
    assert c.ttl - 0.0 == c.ttl;
    assert Balance(c, spent, "x", c.ttl) == c.ttl * c.rps;
    BurstFails(c, spent, "x", c.ttl, n, false);
    var a, b := Answers(c, swept, Burst("x", c.ttl, n), true), Answers(c, spent, Burst("x", c.ttl, n), false);
    assert a[n - 1] && !b[n - 1];
    assert Answers(c, map[], Probe(c), true)[n..][1..] == a;
    assert Answers(c, map[], Probe(c), false)[n..][1..] == b;
  }

  /** Evicting is invisible to every client, on every run of requests and sweeps, if and only if an
      entry is kept at least as long as an empty bucket takes to refill. */
  lemma EvictionTransparentIff(c: Settings)
    requires c.Valid()
    ensures (forall ops | Monotone(0.0, ops) :: Answers(c, map[], ops, true) == Answers(c, map[], ops, false))
       <==> c.ttl * c.rps >= c.burst as real
  {
    if c.ttl * c.rps >= c.burst as real {
      forall ops | Monotone(0.0, ops)
        ensures Answers(c, map[], ops, true) == Answers(c, map[], ops, false)
      {
        SameAnswers(c, map[], map[], 0.0, ops);
      }
    } else {
      ProbeMonotone(c);
      ProbeTellsApart(c);
    }
  }

  // ----- The window bound

  /** How many requests of one client are admitted. */
  function Admitted(ops: seq<Op>, answers: seq<bool>, ip: string): nat
    requires |answers| == |ops|
  {
    if ops == [] then 0
    else (if ops[0].Request? && ops[0].ip == ip && answers[0] then 1 else 0) + Admitted(ops[1..], answers[1..], ip)
  }

  ghost predicate AllOk(c: Settings, all: Entries, now: real) {
    forall ip <- all :: BucketOk(c, all[ip], now)
  }

  lemma BalanceGrows(c: Settings, all: Entries, ip: string, now: real, later: real)
    requires c.Valid() && AllOk(c, all, now) && now <= later
    ensures 0.0 <= Balance(c, all, ip, now)
    ensures Balance(c, all, ip, later) <= Balance(c, all, ip, now) + Earned(c, now, later)
  {
    EarnedSplit(c, now, now, later);
    if ip in all {
      EarnedSplit(c, all[ip].bucket.last, now, later);
    }
  }

  lemma ApplyOk(c: Settings, all: Entries, op: Op)
    requires c.Valid() && AllOk(c, all, op.at)
    ensures AllOk(c, Apply(c, all, op, false).1, op.at)
  {
    if op.Request? && op.ip in all {
      SpendOk(c, all[op.ip], op.at, op.at);
    }
  }

  lemma AllOkLater(c: Settings, all: Entries, now: real, later: real)
    requires AllOk(c, all, now) && now <= later
    ensures AllOk(c, all, later)
  {
  }

  lemma JanitorAnswers(c: Settings, all: Entries, ops: seq<Op>, ip: string)
    requires ops != [] && ops[0].Janitor?
    ensures Admitted(ops, Answers(c, all, ops, false), ip) == Admitted(ops[1..], Answers(c, all, ops[1..], false), ip)
  {
    assert Answers(c, all, ops, false)[1..] == Answers(c, all, ops[1..], false);
  }

  lemma RequestAnswers(c: Settings, all: Entries, ops: seq<Op>, ip: string, ok: bool, next: Entries)
    requires ops != [] && ops[0].Request? && (ok, next) == Apply(c, all, ops[0], false)
    ensures Admitted(ops, Answers(c, all, ops, false), ip)
         == (if ops[0].ip == ip && ok then 1 else 0) + Admitted(ops[1..], Answers(c, next, ops[1..], false), ip)
  {
    assert Answers(c, all, ops, false)[1..] == Answers(c, next, ops[1..], false);
  }

  /** What is admitted is paid for out of the balance and the refill. */
  lemma {:induction false} AdmittedIsPaid(c: Settings, all: Entries, now: real, ops: seq<Op>, end: real, ip: string)
    requires c.Valid() && AllOk(c, all, now) && Monotone(now, ops) && now <= end
    requires forall op <- ops | op.Request? :: op.at <= end
    ensures Admitted(ops, Answers(c, all, ops, false), ip) as real
         <= Balance(c, all, ip, now) + Earned(c, now, end)
    decreases |ops|
  {
    if ops == [] {
      BalanceGrows(c, all, ip, now, end);
      EarnedIs(c, now, end);
    } else {
      assert forall o <- ops[1..] :: o in ops;
      if ops[0].Janitor? {
        MonotoneEarlier(now, Clock(now, ops[0]), ops[1..]);
        AdmittedIsPaid(c, all, now, ops[1..], end, ip);
        JanitorAnswers(c, all, ops, ip);
      } else {
        assert ops[0] in ops;
        var (ok, next) := Apply(c, all, ops[0], false);
        RequestIsPaid(c, all, now, ops[0], ip, ok, next);
        AdmittedIsPaid(c, next, ops[0].at, ops[1..], end, ip);
        RequestAnswers(c, all, ops, ip, ok, next);
        EarnedSplit(c, now, ops[0].at, end);
      }
    }
  }

  lemma RequestIsPaid(c: Settings, all: Entries, now: real, op: Op, ip: string, ok: bool, next: Entries)
    requires c.Valid() && AllOk(c, all, now) && op.Request? && now <= op.at && (ok, next) == Apply(c, all, op, false)
    ensures AllOk(c, next, op.at)
    ensures Balance(c, next, ip, op.at) + (if op.ip == ip && ok then 1.0 else 0.0)
         <= Balance(c, all, ip, now) + Earned(c, now, op.at)
  {
    BalanceGrows(c, all, ip, now, op.at);
    AllOkLater(c, all, now, op.at);
    BalanceGrows(c, all, ip, op.at, op.at);
    ApplyOk(c, all, op);
    BalanceAfter(c, all, ip, op.at);
    OthersUntouched(c, all, op, ip);
  }

  lemma OthersUntouched(c: Settings, all: Entries, op: Op, ip: string)
    ensures !(op.Request? && op.ip == ip) ==>
      Balance(c, Apply(c, all, op, false).1, ip, op.at) == Balance(c, all, ip, op.at)
  {
  }

  lemma {:induction false} NeverEvicting(c: Settings, all: Entries, now: real, ops: seq<Op>, a: nat)
      returns (mid: Entries, at: real)
    requires c.Valid() && AllOk(c, all, now) && Monotone(now, ops) && a <= |ops|
    ensures AllOk(c, mid, at) && Monotone(at, ops[a..])
    ensures Answers(c, all, ops, false)[a..] == Answers(c, mid, ops[a..], false)
    decreases a
  {
    if a == 0 {
      mid, at := all, now;
      assert ops[0..] == ops;
    } else {
      var next, later := Apply(c, all, ops[0], false).1, Clock(now, ops[0]);
      AllOkLater(c, all, now, later);
      if ops[0].Request? {
        ApplyOk(c, all, ops[0]);
      }
      mid, at := NeverEvicting(c, next, later, ops[1..], a - 1);
      assert ops[1..][a - 1..] == ops[a..];
      assert Answers(c, all, ops, false)[1..] == Answers(c, next, ops[1..], false);
    }
  }

  lemma {:induction false} AnswersPrefix(c: Settings, all: Entries, ops: seq<Op>, n: nat)
    requires n <= |ops|
    ensures Answers(c, all, ops, false)[..n] == Answers(c, all, ops[..n], false)
    decreases n
  {
    if n > 0 {
      AnswersPrefix(c, Apply(c, all, ops[0], false).1, ops[1..], n - 1);
      assert ops[..n][1..] == ops[1..][..n - 1];
    }
  }

  lemma {:induction false} MonotonePrefix(start: real, ops: seq<Op>, n: nat)
    requires Monotone(start, ops) && n <= |ops|
    ensures Monotone(start, ops[..n])
    decreases n
  {
    if n > 0 {
      MonotonePrefix(Clock(start, ops[0]), ops[1..], n - 1);
      assert ops[..n][1..] == ops[1..][..n - 1];
    }
  }

  lemma BalanceCapped(c: Settings, all: Entries, ip: string, now: real)
    ensures Balance(c, all, ip, now) <= c.burst as real
  {
  }

  lemma WindowFrom(c: Settings, mid: Entries, first: real, window: seq<Op>, s: real, t: real, ip: string)
    requires c.Valid() && AllOk(c, mid, first) && Monotone(first, window) && s <= first <= t
    requires forall op <- window | op.Request? :: op.at <= t
    ensures Admitted(window, Answers(c, mid, window, false), ip) as real <= c.burst as real + Earned(c, s, t)
  {
    AdmittedIsPaid(c, mid, first, window, t, ip);
    EarnedSplit(c, s, first, t);
    BalanceCapped(c, mid, ip, first);
  }

  lemma {:induction false} WindowPaid(c: Settings, mid: Entries, at: real, window: seq<Op>, s: real, t: real, ip: string)
    requires c.Valid() && AllOk(c, mid, at) && Monotone(at, window) && s <= t
    requires forall op <- window | op.Request? :: s <= op.at <= t
    ensures Admitted(window, Answers(c, mid, window, false), ip) as real <= c.burst as real + Earned(c, s, t)
    decreases |window|
  {
    if window == [] {
      EarnedIs(c, s, t);
    } else if window[0].Janitor? {
      assert forall op <- window[1..] :: op in window;
      MonotoneEarlier(at, Clock(at, window[0]), window[1..]);
      WindowPaid(c, mid, at, window[1..], s, t, ip);
      JanitorAnswers(c, mid, window, ip);
    } else {
      assert window[0] in window;
      AllOkLater(c, mid, at, window[0].at);
      WindowFrom(c, mid, window[0].at, window, s, t, ip);
    }
  }

  /** The operations from `a` to `b` of a run, their requests between `s` and `t`. */
  ghost predicate InWindow(ops: seq<Op>, a: nat, b: nat, s: real, t: real) {
    && Monotone(0.0, ops) && a <= b <= |ops| && s <= t
    && forall op <- ops[a..b] | op.Request? :: s <= op.at <= t
  }

  /** In any time window, across any evictions, a client is admitted at most a burst plus what
      refills during the window. */
  lemma WindowBound(c: Settings, ops: seq<Op>, a: nat, b: nat, s: real, t: real, ip: string)
    requires c.Valid() && c.ttl * c.rps >= c.burst as real && InWindow(ops, a, b, s, t)
    ensures Admitted(ops[a..b], Answers(c, map[], ops, true)[a..b], ip) as real <= c.burst as real + c.rps * (t - s)
  {
    SameAnswers(c, map[], map[], 0.0, ops);
    var mid, at := NeverEvicting(c, map[], 0.0, ops, a);
    var tail, window := ops[a..], ops[a..b];
    assert tail[..b - a] == window;
    AnswersPrefix(c, mid, tail, b - a);
    MonotonePrefix(at, tail, b - a);
    WindowPaid(c, mid, at, window, s, t, ip);
    var answers := Answers(c, map[], ops, false);
    assert answers[a..b] == answers[a..][..b - a];
    EarnedIs(c, s, t);
  }

  ghost predicate Bounded(
    c: Settings, ops: seq<Op>, answers: seq<bool>, a: nat, b: nat, s: real, t: real, ip: string)
    requires a <= b <= |ops| == |answers|
  {
    Admitted(ops[a..b], answers[a..b], ip) as real <= c.burst as real + c.rps * (t - s)
  }

  lemma AnswersBounded(
    c: Settings, ops: seq<Op>, answers: seq<bool>, a: nat, b: nat, s: real, t: real, ip: string)
    requires c.Valid() && c.ttl * c.rps >= c.burst as real && InWindow(ops, a, b, s, t)
    requires answers == Answers(c, map[], ops, true)
    ensures Bounded(c, ops, answers, a, b, s, t, ip)
  {
    WindowBound(c, ops, a, b, s, t, ip);
  }

  // ----- ... and only with that ttl

  lemma {:induction false} BurstAdmitted(ip: string, at: real, n: nat, rest: seq<Op>, answers: seq<bool>)
    requires |answers| == |rest|
    ensures Admitted(Burst(ip, at, n) + rest, Yes(n) + answers, ip) == n + Admitted(rest, answers, ip)
    decreases n
  {
    var ops, all := Burst(ip, at, n) + rest, Yes(n) + answers;
    if n == 0 {
      assert ops == rest && all == answers;
    } else {
      assert ops[1..] == Burst(ip, at, n - 1) + rest && all[1..] == Yes(n - 1) + answers;
      BurstAdmitted(ip, at, n - 1, rest, answers);
    }
  }

  lemma SecondBurstPasses(c: Settings, spent: Entries)
    requires c.Valid() && spent.Keys <= {"x"} && forall ip <- spent :: Expired(c, spent[ip], c.ttl)
    ensures Answers(c, spent, [Janitor(c.ttl)] + Burst("x", c.ttl, c.burst), true) == [false] + Yes(c.burst)
  {
    ProbeRest(c, spent, true);
    var swept := SweepStep(c, spent, c.ttl);
    assert "x" !in swept;
    BurstPasses(c, swept, "x", c.ttl, c.burst, [], true);
    assert Burst("x", c.ttl, c.burst) + [] == Burst("x", c.ttl, c.burst);
  }

  lemma {:induction false} BurstKeys(c: Settings, ips: Entries, ip: string, at: real, n: nat)
    requires ips.Keys <= {ip}
    ensures AfterBurst(c, ips, ip, at, n).Keys <= {ip}
    decreases n
  {
    if n > 0 {
      BurstKeys(c, AllowStep(c, ips, ip, at).1, ip, at, n - 1);
    }
  }

  /** Whatever the refill, the probe gets two bursts admitted within one ttl. */
  lemma ProbeAdmitsTwoBursts(c: Settings)
    requires c.Valid()
    ensures Admitted(Probe(c), Answers(c, map[], Probe(c), true), "x") == 2 * c.burst
  {
    var n := c.burst;
    var second := Burst("x", c.ttl, n);
    var rest := [Janitor(c.ttl)] + second;
    BurstPasses(c, map[], "x", 0.0, n, rest, true);
    BurstSpends(c, map[], "x", 0.0, n);
    BurstKeys(c, map[], "x", 0.0, n);
    SecondBurstPasses(c, AfterBurst(c, map[], "x", 0.0, n));
    BurstAdmitted("x", 0.0, n, rest, [false] + Yes(n));
    assert rest[1..] == second && ([false] + Yes(n))[1..] == Yes(n);
    BurstAdmitted("x", c.ttl, n, [], []);
    assert second + [] == second && Yes(n) + [] == Yes(n);
  }

  lemma {:induction false} BurstAt(ip: string, at: real, n: nat)
    ensures forall op <- Burst(ip, at, n) :: op.at == at
    decreases n
  {
    if n > 0 {
      BurstAt(ip, at, n - 1);
    }
  }

  lemma ProbeInWindow(c: Settings)
    requires c.Valid()
    ensures InWindow(Probe(c), 0, |Probe(c)|, 0.0, c.ttl)
  {
    ProbeMonotone(c);
    BurstAt("x", 0.0, c.burst);
    BurstAt("x", c.ttl, c.burst);
    assert Probe(c)[0..|Probe(c)|] == Probe(c);
  }

  /** No window of any run admits more of any client than a burst and the window's refill. */
  ghost predicate WindowsBounded(c: Settings) {
    forall ops, a: nat, b: nat, s, t, ip | InWindow(ops, a, b, s, t) ::
      Admitted(ops[a..b], Answers(c, map[], ops, true)[a..b], ip) as real <= c.burst as real + Earned(c, s, t)
  }

  lemma TtlEarnsTooLittle(c: Settings)
    requires c.Valid() && c.ttl * c.rps < c.burst as real
    ensures c.burst as real + Earned(c, 0.0, c.ttl) < (2 * c.burst) as real
  {
    EarnedIs(c, 0.0, c.ttl);
    assert c.ttl - 0.0 == c.ttl;
  }

  lemma TooManyInWindow(c: Settings, ops: seq<Op>, t: real, n: nat)
    requires InWindow(ops, 0, |ops|, 0.0, t) && Admitted(ops, Answers(c, map[], ops, true), "x") == n
    requires n as real > c.burst as real + Earned(c, 0.0, t)
    ensures !WindowsBounded(c)
  {
    var answers := Answers(c, map[], ops, true);
    assert ops[0..|ops|] == ops && answers[0..|ops|] == answers;
  }

  lemma ProbeBreaksBound(c: Settings, ops: seq<Op>)
    requires c.Valid() && c.ttl * c.rps < c.burst as real && ops == Probe(c)
    ensures !WindowsBounded(c)
  {
    ProbeInWindow(c);
    ProbeAdmitsTwoBursts(c);
    TtlEarnsTooLittle(c);
    TooManyInWindow(c, ops, c.ttl, 2 * c.burst);
  }

  /** The window bound holds on all runs if and only if an entry is kept at least as long as an empty
      bucket takes to refill. */
  lemma WindowBoundIff(c: Settings)
    requires c.Valid()
    ensures WindowsBounded(c) <==> c.ttl * c.rps >= c.burst as real
  {
    if c.ttl * c.rps >= c.burst as real {
      forall ops, a: nat, b: nat, s, t, ip | InWindow(ops, a, b, s, t)
        ensures Admitted(ops[a..b], Answers(c, map[], ops, true)[a..b], ip) as real <= c.burst as real + Earned(c, s, t)
      {
        EarnedIs(c, s, t);
        WindowBound(c, ops, a, b, s, t, ip);
      }
    } else {
      ProbeBreaksBound(c, Probe(c));
    }
  }
}
