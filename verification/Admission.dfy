/** Admission control as it runs: many requests at once going through bucket, daily quota and
    semaphore, their steps interleaved in any order. */
module Admission {
  import opened Protocol
  import opened Limiter

  type Day = string

  datatype Counter = Counter(ip: string, day: Day)

  type Usage = map<Counter, nat>

  function CountOf(usage: Usage, key: Counter): nat {
    if key in usage then usage[key] else 0
  }

  /** Count, then check: the row grows by one whatever the answer. */
  function QuotaStep(usage: Usage, key: Counter, limit: int): (bool, Usage) {
    var count := CountOf(usage, key) + 1;
    (count <= limit, usage[key := count])
  }

  /** The quota table; one statement bumps a row and returns its new count. */
  class Store {
    var usage: Usage

    constructor ()
      ensures usage == map[]
    {
      usage := map[];
    }

    /** `failing`: the database refuses the statement, and nothing is counted. */
    method CheckAndIncrement(ip: string, day: Day, limit: int, failing: bool) returns (allowed: Option<bool>)
      modifies this`usage
      ensures failing ==> allowed == None && usage == old(usage)
      ensures !failing ==> allowed == Some(QuotaStep(old(usage), Counter(ip, day), limit).0)
      ensures !failing ==> usage == QuotaStep(old(usage), Counter(ip, day), limit).1
    {
      if failing {
        return None;
      }
      var key := Counter(ip, day);
      var count := 1;
      if key in usage {
        count := usage[key] + 1;
      }
      usage := usage[key := count];
      return Some(count <= limit);
    }
  }

  /** How far a request has come. `Serving` is inside the wrapped handler, holding a slot. */
  datatype Progress =
    | Arrived | TooChatty | Metered | StoreFailed | OverQuota | Cleared | Busy | Serving | Served

  datatype Visit = Visit(ip: string, day: Day, progress: Progress) {
    /** The store counted it. */
    predicate Counted() {
      progress.OverQuota? || Passed()
    }

    /** It was within its daily quota. */
    predicate Passed() {
      progress.Cleared? || progress.Busy? || ReachedNext()
    }

    predicate ReachedNext() {
      progress.Serving? || progress.Served?
    }
  }

  datatype Limits = Limits(bucket: Settings, dailyLimit: int, capacity: nat)

  datatype Gate = Gate(ips: Entries, usage: Usage, slots: nat, visits: seq<Visit>)

  datatype Event =
    | Arrive(ip: string)
    | Meter(i: nat, now: real)
    | Count(i: nat, day: Day, failing: bool)
    | Acquire(i: nat)
    | Return(i: nat)
    | Sweep(now: real)

  const OPENED := Gate(map[], map[], 0, [])

  predicate Enabled(g: Gate, e: Event) {
    match e
    case Arrive(_) => true
    case Meter(i, _) => i < |g.visits| && g.visits[i].progress.Arrived?
    case Count(i, _, _) => i < |g.visits| && g.visits[i].progress.Metered?
    case Acquire(i) => i < |g.visits| && g.visits[i].progress.Cleared?
    case Return(i) => i < |g.visits| && g.visits[i].progress.Serving?
    case Sweep(_) => true
  }

  function Moved(g: Gate, i: nat, v: Visit): Gate
    requires i < |g.visits|
  {
    g.(visits := g.visits[i := v])
  }

  function Next(l: Limits, g: Gate, e: Event): Gate
    requires Enabled(g, e)
  {
    match e
    case Arrive(ip) => g.(visits := g.visits + [Visit(ip, "", Arrived)])
    case Meter(i, now) =>
      var (ok, ips) := AllowStep(l.bucket, g.ips, g.visits[i].ip, now);
      Moved(g, i, g.visits[i].(progress := if ok then Metered else TooChatty)).(ips := ips)
    case Count(i, day, failing) =>
      var key := Counter(g.visits[i].ip, day);
      var v := g.visits[i].(day := day);
      if failing then Moved(g, i, v.(progress := StoreFailed))
      else
        var (ok, usage) := QuotaStep(g.usage, key, l.dailyLimit);
        Moved(g, i, v.(progress := if ok then Cleared else OverQuota)).(usage := usage)
    case Acquire(i) =>
      if g.slots < l.capacity then Moved(g, i, g.visits[i].(progress := Serving)).(slots := g.slots + 1)
      else Moved(g, i, g.visits[i].(progress := Busy))
    case Return(i) => Moved(g, i, g.visits[i].(progress := Served)).(slots := if g.slots > 0 then g.slots - 1 else 0)
    case Sweep(now) => g.(ips := SweepStep(l.bucket, g.ips, now))
  }

  predicate Possible(l: Limits, events: seq<Event>)
    decreases |events|, 0
  {
    events == [] ||
    (Possible(l, events[..|events| - 1]) && Enabled(Reached(l, events[..|events| - 1]), events[|events| - 1]))
  }

  function Reached(l: Limits, events: seq<Event>): Gate
    requires Possible(l, events)
    decreases |events|, 1
  {
    if events == [] then OPENED else Next(l, Reached(l, events[..|events| - 1]), events[|events| - 1])
  }

  // ----- Counting visits

  function Tally(p: Visit -> bool, visits: seq<Visit>): nat {
    if visits == [] then 0
    else Tally(p, visits[..|visits| - 1]) + if p(visits[|visits| - 1]) then 1 else 0
  }

  lemma {:induction false} TallyUpdate(p: Visit -> bool, visits: seq<Visit>, i: nat, v: Visit)
    requires i < |visits|
    ensures Tally(p, visits[i := v]) == Tally(p, visits) - (if p(visits[i]) then 1 else 0) + (if p(v) then 1 else 0)
  {
    var n := |visits| - 1;
    if i < n {
      TallyUpdate(p, visits[..n], i, v);
      assert visits[i := v][..n] == visits[..n][i := v];
    } else {
      assert visits[i := v][..n] == visits[..n];
    }
  }

  lemma TallySnoc(p: Visit -> bool, visits: seq<Visit>, v: Visit)
    ensures Tally(p, visits + [v]) == Tally(p, visits) + if p(v) then 1 else 0
  {
    assert (visits + [v])[..|visits|] == visits;
  }

  lemma {:induction false} TallyImplies(p: Visit -> bool, q: Visit -> bool, visits: seq<Visit>)
    requires forall v <- visits :: p(v) ==> q(v)
    ensures Tally(p, visits) <= Tally(q, visits)
  {
    if visits != [] {
      var n := |visits| - 1;
      assert visits[n] in visits && forall v <- visits[..n] :: v in visits;
      TallyImplies(p, q, visits[..n]);
    }
  }

  function IsServing(): Visit -> bool {
    (v: Visit) => v.progress.Serving?
  }

  function CountedAs(key: Counter): Visit -> bool {
    (v: Visit) => v.Counted() && Counter(v.ip, v.day) == key
  }

  function PassedAs(key: Counter): Visit -> bool {
    (v: Visit) => v.Passed() && Counter(v.ip, v.day) == key
  }

  function ReachedAs(key: Counter): Visit -> bool {
    (v: Visit) => v.ReachedNext() && Counter(v.ip, v.day) == key
  }

  /** How many of `count` requests the quota lets through. */
  function Within(count: nat, limit: int): nat {
    if limit <= 0 then 0 else if count <= limit then count else limit
  }

  // ----- The invariant

  ghost predicate SlotsOk(l: Limits, g: Gate) {
    g.slots == Tally(IsServing(), g.visits) <= l.capacity
  }

  ghost predicate QuotaOk(l: Limits, g: Gate, key: Counter) {
    && CountOf(g.usage, key) == Tally(CountedAs(key), g.visits)
    && Tally(PassedAs(key), g.visits) == Within(CountOf(g.usage, key), l.dailyLimit)
  }

  lemma MoveSlots(l: Limits, g: Gate, i: nat, v: Visit)
    requires i < |g.visits|
    ensures Tally(IsServing(), Moved(g, i, v).visits) == Tally(IsServing(), g.visits)
      - (if g.visits[i].progress.Serving? then 1 else 0) + (if v.progress.Serving? then 1 else 0)
  {
    TallyUpdate(IsServing(), g.visits, i, v);
  }

  lemma NextSlots(l: Limits, g: Gate, e: Event)
    requires SlotsOk(l, g) && Enabled(g, e)
    ensures SlotsOk(l, Next(l, g, e))
  {
    match e
    case Arrive(ip) => TallySnoc(IsServing(), g.visits, Visit(ip, "", Arrived));
    case Sweep(_) =>
    case Meter(i, now) => MoveSlots(l, g, i, Next(l, g, e).visits[i]);
    case Count(i, day, failing) => MoveSlots(l, g, i, Next(l, g, e).visits[i]);
    case Acquire(i) => MoveSlots(l, g, i, Next(l, g, e).visits[i]);
    case Return(i) => MoveSlots(l, g, i, Next(l, g, e).visits[i]);
  }

  /** A request moving on counts for `key` as before. */
  lemma MoveQuota(l: Limits, g: Gate, i: nat, v: Visit, h: Gate, key: Counter)
    requires QuotaOk(l, g, key) && i < |g.visits| && h.visits == g.visits[i := v] && h.usage == g.usage
    requires CountedAs(key)(v) == CountedAs(key)(g.visits[i]) && PassedAs(key)(v) == PassedAs(key)(g.visits[i])
    ensures QuotaOk(l, h, key)
  {
    TallyUpdate(CountedAs(key), g.visits, i, v);
    TallyUpdate(PassedAs(key), g.visits, i, v);
  }

  /** The store counting a request of `key`, or of another key. */
  lemma CountQuota(l: Limits, g: Gate, i: nat, v: Visit, h: Gate, key: Counter)
    requires QuotaOk(l, g, key) && i < |g.visits| && h.visits == g.visits[i := v]
    requires !g.visits[i].Counted()
    requires v.progress == if CountOf(g.usage, Counter(v.ip, v.day)) + 1 <= l.dailyLimit then Cleared else OverQuota
    requires h.usage == g.usage[Counter(v.ip, v.day) := CountOf(g.usage, Counter(v.ip, v.day)) + 1]
    ensures QuotaOk(l, h, key)
  {
    TallyUpdate(CountedAs(key), g.visits, i, v);
    TallyUpdate(PassedAs(key), g.visits, i, v);
  }

  lemma NextQuota(l: Limits, g: Gate, e: Event, key: Counter)
    requires QuotaOk(l, g, key) && Enabled(g, e)
    ensures QuotaOk(l, Next(l, g, e), key)
  {
    var h := Next(l, g, e);
    match e
    case Arrive(ip) =>
      TallySnoc(CountedAs(key), g.visits, Visit(ip, "", Arrived));
      TallySnoc(PassedAs(key), g.visits, Visit(ip, "", Arrived));
    case Sweep(_) =>
    case Count(i, day, failing) =>
      if failing {
        MoveQuota(l, g, i, h.visits[i], h, key);
      } else {
        CountQuota(l, g, i, h.visits[i], h, key);
      }
    case Meter(i, _) => MoveQuota(l, g, i, h.visits[i], h, key);
    case Acquire(i) => MoveQuota(l, g, i, h.visits[i], h, key);
    case Return(i) => MoveQuota(l, g, i, h.visits[i], h, key);
  }

  lemma {:induction false} RunsKeepSlots(l: Limits, events: seq<Event>)
    requires Possible(l, events)
    ensures SlotsOk(l, Reached(l, events))
    decreases |events|
  {
    if events != [] {
      RunsKeepSlots(l, events[..|events| - 1]);
      NextSlots(l, Reached(l, events[..|events| - 1]), events[|events| - 1]);
    }
  }

  lemma {:induction false} RunsKeepQuota(l: Limits, events: seq<Event>, key: Counter)
    requires Possible(l, events)
    ensures QuotaOk(l, Reached(l, events), key)
    decreases |events|
  {
    if events != [] {
      RunsKeepQuota(l, events[..|events| - 1], key);
      NextQuota(l, Reached(l, events[..|events| - 1]), events[|events| - 1], key);
    }
  }

  /** Over every interleaving of any number of requests: the semaphore holds exactly the requests
      inside the handler and never more than its capacity; each (client, day) row counts exactly the
      requests that passed the bucket and were stored; exactly the first `dailyLimit` of those pass
      the quota, so no more than that ever reach the handler. */
  lemma AdmissionIsConserved(l: Limits, events: seq<Event>, key: Counter)
    requires Possible(l, events)
    ensures var g := Reached(l, events);
      && g.slots == Tally(IsServing(), g.visits) <= l.capacity
      && CountOf(g.usage, key) == Tally(CountedAs(key), g.visits)
      && Tally(PassedAs(key), g.visits) == Within(CountOf(g.usage, key), l.dailyLimit)
      && Tally(ReachedAs(key), g.visits) <= Within(CountOf(g.usage, key), l.dailyLimit)
  {
    RunsKeepSlots(l, events);
    RunsKeepQuota(l, events, key);
    TallyImplies(ReachedAs(key), PassedAs(key), Reached(l, events).visits);
  }

  /** A free slot is never refused, and a full semaphore never waited on. */
  lemma BusyOnlyWhenFull(l: Limits, events: seq<Event>, i: nat)
    requires Possible(l, events + [Acquire(i)])
    ensures Possible(l, events)
    ensures Reached(l, events + [Acquire(i)]).visits[i].progress ==
            if Tally(IsServing(), Reached(l, events).visits) < l.capacity then Serving else Busy
  {
    assert (events + [Acquire(i)])[..|events|] == events;
    RunsKeepSlots(l, events);
  }

  // ----- The bucket

  /** A request gets past the bucket exactly if its client has a token left. */
  lemma MeterTakesAToken(l: Limits, events: seq<Event>, i: nat, now: real)
    requires Possible(l, events + [Meter(i, now)])
    ensures Possible(l, events) && i < |Reached(l, events).visits|
    ensures var g := Reached(l, events);
      Reached(l, events + [Meter(i, now)]).visits[i].progress ==
      if Balance(l.bucket, g.ips, g.visits[i].ip, now) >= 1.0 then Metered else TooChatty
  {
    assert (events + [Meter(i, now)])[..|events|] == events;
  }

  /** A client not seen before always has one. */
  lemma NewcomerIsMetered(l: Limits, events: seq<Event>, i: nat, now: real)
    requires Possible(l, events + [Meter(i, now)]) && l.bucket.Valid()
    requires Possible(l, events) && i < |Reached(l, events).visits|
    requires Reached(l, events).visits[i].ip !in Reached(l, events).ips
    ensures Reached(l, events + [Meter(i, now)]).visits[i].progress == Metered
  {
    MeterTakesAToken(l, events, i, now);
  }

  /** What the limiter sees of an event. */
  function OpOf(g: Gate, e: Event): seq<Op> {
    match e
    case Meter(i, now) => if i < |g.visits| then [Op.Request(g.visits[i].ip, now)] else []
    case Sweep(now) => [Janitor(now)]
    case _ => []
  }

  /** What the limiter sees of a run: its requests and sweeps, in order. */
  function OpsOf(l: Limits, events: seq<Event>): seq<Op>
    requires Possible(l, events)
  {
    if events == [] then []
    else
      var init := events[..|events| - 1];
      OpsOf(l, init) + OpOf(Reached(l, init), events[|events| - 1])
  }

  /** What the gate did with each: `true` for a request that got past the bucket. */
  function Verdicts(l: Limits, events: seq<Event>): seq<bool>
    requires Possible(l, events)
  {
    if events == [] then []
    else
      var init, last := events[..|events| - 1], events[|events| - 1];
      Verdicts(l, init) + match last
        case Meter(i, _) => [Reached(l, events).visits[i].progress.Metered?]
        case Sweep(_) => [false]
        case _ => []
  }

  /** A step works on the limiter's entries as what the limiter sees of it does. */
  lemma EntriesStep(l: Limits, g: Gate, e: Event)
    requires Enabled(g, e)
    ensures OpOf(g, e) == [] ==> Next(l, g, e).ips == g.ips
    ensures OpOf(g, e) != [] ==> |OpOf(g, e)| == 1 && (e.Meter? || e.Sweep?)
    ensures OpOf(g, e) != [] ==> Next(l, g, e).ips == Apply(l.bucket, g.ips, OpOf(g, e)[0], true).1
  {
  }

  lemma AfterOne(c: Settings, ops: seq<Op>, op: Op)
    ensures After(c, map[], ops + [op], true) == Apply(c, After(c, map[], ops, true), op, true).1
  {
    assert (ops + [op])[..|ops|] == ops;
  }

  lemma BucketStep(l: Limits, g: Gate, e: Event, ops: seq<Op>)
    requires Enabled(g, e) && g.ips == After(l.bucket, map[], ops, true)
    ensures Next(l, g, e).ips == After(l.bucket, map[], ops + OpOf(g, e), true)
    ensures OpOf(g, e) == [] || ((e.Meter? || e.Sweep?) && |OpOf(g, e)| == 1)
  {
    EntriesStep(l, g, e);
    if OpOf(g, e) == [] {
      assert ops + [] == ops;
    } else {
      assert OpOf(g, e) == [OpOf(g, e)[0]];
      AfterOne(l.bucket, ops, OpOf(g, e)[0]);
    }
  }

  lemma VerdictStep(l: Limits, g: Gate, e: Event, ops: seq<Op>)
    requires Enabled(g, e) && g.ips == After(l.bucket, map[], ops, true) && OpOf(g, e) != []
    ensures |OpOf(g, e)| == 1
    ensures Answers(l.bucket, map[], ops + OpOf(g, e), true)
         == Answers(l.bucket, map[], ops, true)
            + [e.Meter? && Next(l, g, e).visits[e.i].progress.Metered?]
  {
    AnswersSnoc(l.bucket, map[], ops, OpOf(g, e)[0], true);
    assert OpOf(g, e) == [OpOf(g, e)[0]];
  }

  /** The gate does what the limiter answers: a run's verdicts are the limiter's answers to what it
      saw, and its entries are the limiter's. */
  lemma {:induction false} VerdictsAreAnswers(l: Limits, events: seq<Event>)
    requires Possible(l, events)
    ensures Reached(l, events).ips == After(l.bucket, map[], OpsOf(l, events), true)
    ensures Verdicts(l, events) == Answers(l.bucket, map[], OpsOf(l, events), true)
    decreases |events|
  {
    if events != [] {
      var init, last := events[..|events| - 1], events[|events| - 1];
      VerdictsAreAnswers(l, init);
      BucketStep(l, Reached(l, init), last, OpsOf(l, init));
      if OpOf(Reached(l, init), last) != [] {
        VerdictStep(l, Reached(l, init), last, OpsOf(l, init));
      } else {
        assert OpsOf(l, init) + [] == OpsOf(l, init);
      }
    }
  }

  /** So with entries kept long enough, no time window of any run lets more requests of one client
      past the bucket than a burst and what refills in it, across evictions. */
  lemma BucketHoldsInWindow(l: Limits, events: seq<Event>, a: nat, b: nat, s: real, t: real, ip: string)
    requires Possible(l, events) && l.bucket.Valid() && l.bucket.ttl * l.bucket.rps >= l.bucket.burst as real
    requires InWindow(OpsOf(l, events), a, b, s, t)
    ensures |Verdicts(l, events)| == |OpsOf(l, events)|
    ensures Bounded(l.bucket, OpsOf(l, events), Verdicts(l, events), a, b, s, t, ip)
  {
    VerdictsAreAnswers(l, events);
    AnswersBounded(l.bucket, OpsOf(l, events), Verdicts(l, events), a, b, s, t, ip);
  }

  // ----- Visits past the bucket

  function PastBucket(ip: string): Visit -> bool {
    (v: Visit) => v.ip == ip && !v.progress.Arrived? && !v.progress.TooChatty?
  }

  lemma {:induction false} AdmittedSnoc(ops: seq<Op>, answers: seq<bool>, op: Op, ok: bool, ip: string)
    requires |ops| == |answers|
    ensures Admitted(ops + [op], answers + [ok], ip)
         == Admitted(ops, answers, ip) + if op.Request? && op.ip == ip && ok then 1 else 0
    decreases |ops|
  {
    if ops == [] {
      assert [] + [op] == [op] && [] + [ok] == [ok];
    } else {
      AdmittedSnoc(ops[1..], answers[1..], op, ok, ip);
      assert (ops + [op])[1..] == ops[1..] + [op] && (answers + [ok])[1..] == answers[1..] + [ok];
    }
  }

  lemma NextPastBucket(l: Limits, g: Gate, e: Event, ip: string)
    requires Enabled(g, e)
    ensures Tally(PastBucket(ip), Next(l, g, e).visits) == Tally(PastBucket(ip), g.visits)
      + if e.Meter? && g.visits[e.i].ip == ip && Next(l, g, e).visits[e.i].progress.Metered? then 1 else 0
  {
    match e
    case Arrive(who) => TallySnoc(PastBucket(ip), g.visits, Visit(who, "", Arrived));
    case Sweep(_) =>
    case Meter(i, now) => TallyUpdate(PastBucket(ip), g.visits, i, Next(l, g, e).visits[i]);
    case Count(i, day, failing) => TallyUpdate(PastBucket(ip), g.visits, i, Next(l, g, e).visits[i]);
    case Acquire(i) => TallyUpdate(PastBucket(ip), g.visits, i, Next(l, g, e).visits[i]);
    case Return(i) => TallyUpdate(PastBucket(ip), g.visits, i, Next(l, g, e).visits[i]);
  }

  /** A client's visits past the bucket are exactly those the limiter admitted. */
  lemma {:induction false} PastBucketIsAdmitted(l: Limits, events: seq<Event>, ip: string)
    requires Possible(l, events)
    ensures |Verdicts(l, events)| == |OpsOf(l, events)|
    ensures Tally(PastBucket(ip), Reached(l, events).visits) == Admitted(OpsOf(l, events), Verdicts(l, events), ip)
    decreases |events|
  {
    if events != [] {
      var init, last := events[..|events| - 1], events[|events| - 1];
      PastBucketIsAdmitted(l, init, ip);
      var g, ops := Reached(l, init), OpsOf(l, init);
      NextPastBucket(l, g, last, ip);
      if last.Meter? {
        AdmittedSnoc(ops, Verdicts(l, init), Op.Request(g.visits[last.i].ip, last.now),
                     Reached(l, events).visits[last.i].progress.Metered?, ip);
      } else if last.Sweep? {
        AdmittedSnoc(ops, Verdicts(l, init), Janitor(last.now), false, ip);
      } else {
        assert ops + [] == ops && Verdicts(l, init) + [] == Verdicts(l, init);
      }
    }
  }
}
