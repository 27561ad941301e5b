/**
 The fixed-window rate limiter over a cache with timeouts.

 A cache key is live while the clock is before its expiry; an expired entry may lie
 around until the next add() replaces it. Each cache call is one atomic step. Window
 lifetimes of a bucket are told apart by the expiry of their counter key.
 */
module RateLimit {
  import opened Options

  /** Selects the counter key `rate:scope:client` and its `:window` companion. */
  datatype Bucket = Bucket(scope: string, client: string)

  datatype Limit = Limit(attempts: int, period: int)

  datatype Counter = Counter(count: nat, expiry: real)
  datatype Deadline = Deadline(value: real, expiry: real)
  datatype Cache = Cache(counters: map<Bucket, Counter>, deadlines: map<Bucket, Deadline>)

  predicate CounterLive(c: Cache, b: Bucket, now: real) {
    b in c.counters && now < c.counters[b].expiry
  }

  predicate DeadlineLive(c: Cache, b: Bucket, now: real) {
    b in c.deadlines && now < c.deadlines[b].expiry
  }

  /** cache.add(deadline_key, value, timeout=period) */
  function AddDeadline(c: Cache, b: Bucket, value: real, now: real, period: int): Cache {
    if DeadlineLive(c, b, now) then c
    else c.(deadlines := c.deadlines[b := Deadline(value, now + period as real)])
  }

  /** cache.add(key, 0, timeout=period) */
  function AddCounter(c: Cache, b: Bucket, now: real, period: int): Cache {
    if CounterLive(c, b, now) then c
    else c.(counters := c.counters[b := Counter(0, now + period as real)])
  }

  /** cache.incr(key) on a live key: the expiry stays. */
  function Incr(c: Cache, b: Bucket): Cache
    requires b in c.counters
  {
    c.(counters := c.counters[b := c.counters[b].(count := c.counters[b].count + 1)])
  }

  function Ceiling(x: real): int {
    -((-x).Floor)
  }

  /** max(1, min(period, ceil(deadline - now))), or period when the deadline key is gone. */
  function RetryAfter(c: Cache, b: Bucket, now: real, readAt: real, period: int): (seconds: int)
    ensures period >= 1 ==> 1 <= seconds <= period
  {
    if !DeadlineLive(c, b, readAt) then period
    else
      var left := Ceiling(c.deadlines[b].value - now);
      var capped := if left < period then left else period;
      if capped > 1 then capped else 1
  }

  // ------------------------------------------------ interleaved requests

  datatype Stage =
    | Arrived                 // before cache.add(deadline_key)
    | HasDeadline             // before cache.add(key)
    | HasCounter              // before cache.incr(key)
    | Lost                    // incr raised ValueError: before the second add
    | HasCounterAgain         // before the second incr
    | Counted(count: nat)
    | Admitted
    | Rejected(retryAfter: int)
    | Failed                  // the second incr raised as well

  datatype Request = Request(bucket: Bucket, now: real, stage: Stage)

  /** One successful incr: which request, when, the count returned, the counter's expiry. */
  datatype Hit = Hit(request: nat, bucket: Bucket, at: real, count: nat, life: real)

  datatype State = State(
    limits: map<string, Limit>, now: real, cache: Cache, requests: seq<Request>, hits: seq<Hit>)

  datatype Event =
    | Advance(seconds: real)
    | Arrive(bucket: Bucket)
    | StepAddDeadline(r: nat)
    | StepAddCounter(r: nat)
    | StepIncr(r: nat)
    | StepReAdd(r: nat)
    | StepIncrAgain(r: nat)
    | Decide(r: nat)

  /** A scope that is known and whose window is not disabled. */
  predicate Limited(s: State, b: Bucket) {
    b.scope in s.limits && s.limits[b.scope].period > 0
  }

  function Period(s: State, b: Bucket): int
    requires Limited(s, b)
  {
    s.limits[b.scope].period
  }

  predicate At(s: State, r: nat, stage: Stage) {
    r < |s.requests| && s.requests[r].stage == stage && Limited(s, s.requests[r].bucket)
  }

  predicate Enabled(s: State, e: Event) {
    match e
    case Advance(d) => d >= 0.0
    case Arrive(b) => Limited(s, b)
    case StepAddDeadline(r) => At(s, r, Arrived)
    case StepAddCounter(r) => At(s, r, HasDeadline)
    case StepIncr(r) => At(s, r, HasCounter)
    case StepReAdd(r) => At(s, r, Lost)
    case StepIncrAgain(r) => At(s, r, HasCounterAgain)
    case Decide(r) =>
      r < |s.requests| && s.requests[r].stage.Counted? && Limited(s, s.requests[r].bucket)
  }

  function To(s: State, r: nat, stage: Stage): State
    requires r < |s.requests|
  {
    s.(requests := s.requests[r := s.requests[r].(stage := stage)])
  }

  /** The state right after a successful incr. */
  function Hitting(s: State, r: nat, b: Bucket): State
    requires b in s.cache.counters
  {
    var cache := Incr(s.cache, b);
    s.(cache := cache, hits := s.hits + [Hit(r, b, s.now, cache.counters[b].count, cache.counters[b].expiry)])
  }

  /** incr: counts the request in the live window, or sends it to `otherwise`. */
  function CountIn(s: State, r: nat, otherwise: Stage): State
    requires r < |s.requests|
  {
    var b := s.requests[r].bucket;
    if CounterLive(s.cache, b, s.now)
    then To(Hitting(s, r, b), r, Counted(s.cache.counters[b].count + 1))
    else To(s, r, otherwise)
  }

  function Apply(s: State, e: Event): State
    requires Enabled(s, e)
  {
    match e
    case Advance(d) => s.(now := s.now + d)
    case Arrive(b) => s.(requests := s.requests + [Request(b, s.now, Arrived)])
    case StepAddDeadline(r) =>
      var q := s.requests[r];
      var period := Period(s, q.bucket);
      To(s.(cache := AddDeadline(s.cache, q.bucket, q.now + period as real, s.now, period)), r, HasDeadline)
    case StepAddCounter(r) =>
      var q := s.requests[r];
      To(s.(cache := AddCounter(s.cache, q.bucket, s.now, Period(s, q.bucket))), r, HasCounter)
    case StepIncr(r) => CountIn(s, r, Lost)
    case StepReAdd(r) =>
      var q := s.requests[r];
      To(s.(cache := AddCounter(s.cache, q.bucket, s.now, Period(s, q.bucket))), r, HasCounterAgain)
    case StepIncrAgain(r) => CountIn(s, r, Failed)
    case Decide(r) =>
      var q := s.requests[r];
      if q.stage.count > s.limits[q.bucket.scope].attempts
      then To(s, r, Rejected(RetryAfter(s.cache, q.bucket, q.now, s.now, Period(s, q.bucket))))
      else To(s, r, Admitted)
  }

  function Next(s: State, e: Event): State {
    if Enabled(s, e) then Apply(s, e) else s
  }

  function Run(s: State, es: seq<Event>): State {
    if es == [] then s else Next(Run(s, es[..|es| - 1]), es[|es| - 1])
  }

  predicate Initial(s: State) {
    s.cache == Cache(map[], map[]) && s.requests == [] && s.hits == []
  }

  /** cache.add: a live key is left alone, a dead one gets the value and a full timeout. */
  lemma AddsDo(c: Cache, b: Bucket, value: real, now: real, period: int)
    ensures AddDeadline(c, b, value, now, period) ==
      if DeadlineLive(c, b, now) then c
      else Cache(c.counters, c.deadlines[b := Deadline(value, now + period as real)])
    ensures AddCounter(c, b, now, period) ==
      if CounterLive(c, b, now) then c
      else Cache(c.counters[b := Counter(0, now + period as real)], c.deadlines)
  {
  }

  /** The clock and an arrival: the request keeps the time it came in. */
  lemma ClockAndArrival(s: State, seconds: real, b: Bucket)
    requires seconds >= 0.0
    ensures Next(s, Advance(seconds)) == State(s.limits, s.now + seconds, s.cache, s.requests, s.hits)
    ensures b.scope in s.limits && s.limits[b.scope].period > 0 ==>
      Next(s, Arrive(b)) == State(s.limits, s.now, s.cache, s.requests + [Request(b, s.now, Arrived)], s.hits)
  {
  }

  /**
   The first two cache calls of a request and its verdict, whenever they come: the deadline
   is the time it came in plus the period, and the wait told is counted from that time too.
   */
  lemma StepsDo(s: State, r: nat, b: Bucket, came: real)
    requires r < |s.requests| && s.requests[r].bucket == b && s.requests[r].now == came
    requires b.scope in s.limits && s.limits[b.scope].period > 0
    ensures var period := s.limits[b.scope].period;
      var cache := AddDeadline(s.cache, b, came + period as real, s.now, period);
      s.requests[r].stage == Arrived ==>
        Next(s, StepAddDeadline(r)) ==
          State(s.limits, s.now, cache, s.requests[r := Request(b, came, HasDeadline)], s.hits)
    ensures var cache := AddCounter(s.cache, b, s.now, s.limits[b.scope].period);
      s.requests[r].stage == HasDeadline ==>
        Next(s, StepAddCounter(r)) ==
          State(s.limits, s.now, cache, s.requests[r := Request(b, came, HasCounter)], s.hits)
    ensures var period, limit := s.limits[b.scope].period, s.limits[b.scope].attempts;
      s.requests[r].stage.Counted? && s.requests[r].stage.count > limit ==>
        Next(s, Decide(r)).requests[r].stage == Rejected(
          if !DeadlineLive(s.cache, b, s.now) then period
          else AtLeast(1, AtMost(period, Ceiling(s.cache.deadlines[b].value - came))))
  {
  }

  function AtMost(x: int, y: int): int {
    if x < y then x else y
  }

  function AtLeast(x: int, y: int): int {
    if x > y then x else y
  }

  /** A run takes its events one after another. */
  lemma RunOneMore(s: State, es: seq<Event>, e: Event)
    ensures Run(s, []) == s
    ensures Run(s, es + [e]) == Next(Run(s, es), e)
  {
    assert (es + [e])[..|es|] == es;
  }

  /** A run may start at any time and under any limits, with an empty cache. */
  lemma StartsEmpty(limits: map<string, Limit>, now: real)
    ensures Initial(State(limits, now, Cache(map[], map[]), [], []))
  {
  }

  /** How many hits a lifetime of a bucket has. */
  function HitsIn(hits: seq<Hit>, b: Bucket, life: real): nat {
    if hits == [] then 0
    else HitsIn(hits[..|hits| - 1], b, life) +
         (var h := hits[|hits| - 1]; if h.bucket == b && h.life == life then 1 else 0)
  }

  /** A hit lies inside its lifetime; another lifetime of the bucket is a period apart or more. */
  ghost predicate HitOk(s: State, h: Hit) {
    && Limited(s, h.bucket)
    && h.bucket in s.cache.counters
    && var period, current := Period(s, h.bucket) as real, s.cache.counters[h.bucket].expiry;
    && h.life - period <= h.at < h.life
    && (h.life == current || h.life + period <= current)
  }

  ghost predicate CountersOk(s: State) {
    forall b :: b in s.cache.counters ==>
      && Limited(s, b)
      && s.cache.counters[b].expiry <= s.now + Period(s, b) as real
      && s.cache.counters[b].count == HitsIn(s.hits, b, s.cache.counters[b].expiry)
  }

  /** Each hit returns one more than its lifetime had. */
  ghost predicate EachHitOk(s: State) {
    forall j :: 0 <= j < |s.hits| ==>
      HitOk(s, s.hits[j])
      && s.hits[j].count == HitsIn(s.hits[..j], s.hits[j].bucket, s.hits[j].life) + 1
  }

  /** Hits come in order of lifetime. */
  ghost predicate LivesInOrder(s: State) {
    forall i, j :: 0 <= i < j < |s.hits| && s.hits[i].bucket == s.hits[j].bucket ==>
      s.hits[i].life == s.hits[j].life
      || (Limited(s, s.hits[j].bucket)
          && s.hits[i].life + Period(s, s.hits[j].bucket) as real <= s.hits[j].life)
  }

  ghost predicate HitsOk(s: State) {
    EachHitOk(s) && LivesInOrder(s)
  }

  ghost predicate Inv(s: State) {
    CountersOk(s) && HitsOk(s)
  }

  lemma {:induction false} NoHitsIn(hits: seq<Hit>, b: Bucket, life: real)
    requires forall h :: h in hits && h.bucket == b ==> h.life != life
    ensures HitsIn(hits, b, life) == 0
  {
    if hits != [] {
      assert hits[|hits| - 1] in hits;
      NoHitsIn(hits[..|hits| - 1], b, life);
    }
  }

  /** Inv reads only the counters, the hits, the limits and, monotonically, the clock. */
  lemma SameCounters(s: State, s': State)
    requires Inv(s) && s'.limits == s.limits && s'.cache.counters == s.cache.counters && s'.hits == s.hits
    requires s.now <= s'.now
    ensures Inv(s')
  {
  }

  /** A window that starts now is later than every hit so far, by a period or more. */
  lemma NewWindow(s: State, b: Bucket)
    requires Inv(s) && Limited(s, b) && !CounterLive(s.cache, b, s.now)
    ensures HitsIn(s.hits, b, s.now + Period(s, b) as real) == 0
    ensures forall j :: 0 <= j < |s.hits| && s.hits[j].bucket == b ==> s.hits[j].life <= s.now
  {
    forall j | 0 <= j < |s.hits| && s.hits[j].bucket == b ensures s.hits[j].life <= s.now {
      assert HitOk(s, s.hits[j]);
    }
    NoHitsIn(s.hits, b, s.now + Period(s, b) as real);
  }

  lemma AddCounterStep(s: State, b: Bucket)
    requires Inv(s) && Limited(s, b)
    ensures Inv(s.(cache := AddCounter(s.cache, b, s.now, Period(s, b))))
  {
    if !CounterLive(s.cache, b, s.now) {
      var s' := s.(cache := AddCounter(s.cache, b, s.now, Period(s, b)));
      NewWindow(s, b);
      forall j | 0 <= j < |s'.hits| ensures HitOk(s', s'.hits[j]) {
        assert HitOk(s, s.hits[j]);
      }
      assert CountersOk(s');
    }
  }

  lemma HitKeepsEach(s: State, r: nat, b: Bucket)
    requires Inv(s) && Limited(s, b) && CounterLive(s.cache, b, s.now)
    ensures EachHitOk(Hitting(s, r, b))
  {
    var s', n := Hitting(s, r, b), |s.hits|;
    assert s'.hits[..n] == s.hits;
    forall j | 0 <= j < |s'.hits|
      ensures HitOk(s', s'.hits[j])
      ensures s'.hits[j].count == HitsIn(s'.hits[..j], s'.hits[j].bucket, s'.hits[j].life) + 1
    {
      if j < n {
        assert HitOk(s, s.hits[j]);
        assert s'.hits[..j] == s.hits[..j];
      }
    }
  }

  lemma HitKeepsOrder(s: State, r: nat, b: Bucket)
    requires Inv(s) && Limited(s, b) && CounterLive(s.cache, b, s.now)
    ensures LivesInOrder(Hitting(s, r, b))
  {
  }

  lemma HitStep(s: State, r: nat, b: Bucket)
    requires Inv(s) && Limited(s, b) && CounterLive(s.cache, b, s.now)
    ensures Inv(Hitting(s, r, b))
  {
    HitKeepsEach(s, r, b);
    HitKeepsOrder(s, r, b);
    assert Hitting(s, r, b).hits[..|s.hits|] == s.hits;
  }

  lemma CountStep(s: State, r: nat, otherwise: Stage)
    requires Inv(s) && r < |s.requests| && Limited(s, s.requests[r].bucket)
    ensures Inv(CountIn(s, r, otherwise))
  {
    var b := s.requests[r].bucket;
    if CounterLive(s.cache, b, s.now) {
      HitStep(s, r, b);
      SameCounters(Hitting(s, r, b), CountIn(s, r, otherwise));
    } else {
      SameCounters(s, CountIn(s, r, otherwise));
    }
  }

  lemma InvStep(s: State, e: Event)
    requires Inv(s)
    ensures Inv(Next(s, e))
  {
    if Enabled(s, e) {
      match e
      case StepAddCounter(r) => ReadyStep(s, r, HasCounter);
      case StepReAdd(r) => ReadyStep(s, r, HasCounterAgain);
      case StepIncr(r) => CountStep(s, r, Lost);
      case StepIncrAgain(r) => CountStep(s, r, Failed);
      case Advance(_) => SameCounters(s, Apply(s, e));
      case Arrive(_) => SameCounters(s, Apply(s, e));
      case StepAddDeadline(_) => SameCounters(s, Apply(s, e));
      case Decide(_) => SameCounters(s, Apply(s, e));
    }
  }

  lemma ReadyStep(s: State, r: nat, stage: Stage)
    requires Inv(s) && r < |s.requests| && Limited(s, s.requests[r].bucket)
    ensures var b := s.requests[r].bucket;
      Inv(To(s.(cache := AddCounter(s.cache, b, s.now, Period(s, b))), r, stage))
  {
    var b := s.requests[r].bucket;
    AddCounterStep(s, b);
    var t := s.(cache := AddCounter(s.cache, b, s.now, Period(s, b)));
    SameCounters(t, To(t, r, stage));
  }

  lemma {:induction false} RunInv(s: State, es: seq<Event>)
    requires Initial(s)
    ensures Inv(Run(s, es)) && Run(s, es).limits == s.limits
  {
    if es != [] {
      RunInv(s, es[..|es| - 1]);
      InvStep(Run(s, es[..|es| - 1]), es[|es| - 1]);
    }
  }

  /**
   The counts returned within one lifetime are 1, 2, 3, ..: each hit returns one more
   than the number of hits its lifetime had before, whatever is interleaved.
   */
  lemma CountsAreConsecutive(s: State, es: seq<Event>)
    requires Initial(s)
    ensures var hits := Run(s, es).hits;
      forall j :: 0 <= j < |hits| ==>
        hits[j].count == HitsIn(hits[..j], hits[j].bucket, hits[j].life) + 1
  {
    RunInv(s, es);
  }

  /** Requests of a bucket that pass `limit`, counted at a moment in [from, to]. */
  function Passes(hits: seq<Hit>, b: Bucket, limit: int, from: real, to: real): nat {
    if hits == [] then 0
    else Passes(hits[..|hits| - 1], b, limit, from, to) +
         (var h := hits[|hits| - 1]; if h.bucket == b && h.count <= limit && from <= h.at <= to then 1 else 0)
  }

  /** The same, for one lifetime. */
  function PassesOf(hits: seq<Hit>, b: Bucket, limit: int, life: real): nat {
    if hits == [] then 0
    else PassesOf(hits[..|hits| - 1], b, limit, life) +
         (var h := hits[|hits| - 1]; if h.bucket == b && h.count <= limit && h.life == life then 1 else 0)
  }

  function AtLeastZero(x: int): nat {
    if x < 0 then 0 else x
  }

  /** What is counted: a hit of the bucket whose count is within the limit, in the closed interval or in the lifetime. */
  lemma PassesOneMore(hits: seq<Hit>, h: Hit, b: Bucket, limit: int, from: real, to: real, life: real)
    ensures Passes([], b, limit, from, to) == 0 && PassesOf([], b, limit, life) == 0
    ensures Passes(hits + [h], b, limit, from, to) == Passes(hits, b, limit, from, to) +
      (if h.bucket == b && h.count < limit + 1 && !(h.at < from) && !(h.at > to) then 1 else 0)
    ensures PassesOf(hits + [h], b, limit, life) == PassesOf(hits, b, limit, life) +
      (if h.bucket == b && h.count < limit + 1 && h.life == life then 1 else 0)
  {
    assert (hits + [h])[..|hits|] == hits;
  }

  /** A lifetime passes its first `limit` hits and no other. */
  lemma {:induction false} LifetimePasses(hits: seq<Hit>, b: Bucket, limit: int, life: real)
    requires forall j :: 0 <= j < |hits| ==>
      hits[j].count == HitsIn(hits[..j], hits[j].bucket, hits[j].life) + 1
    ensures var all := HitsIn(hits, b, life);
      PassesOf(hits, b, limit, life) == if all <= limit then all else AtLeastZero(limit)
  {
    if hits != [] {
      var rest := hits[..|hits| - 1];
      assert forall j :: 0 <= j < |rest| ==> rest[..j] == hits[..j];
      LifetimePasses(rest, b, limit, life);
    }
  }

  lemma {:induction false} TwoLifetimes(hits: seq<Hit>, b: Bucket, limit: int, from: real, to: real, x: real, y: real)
    requires forall h :: h in hits && h.bucket == b && from <= h.at <= to ==> h.life == x || h.life == y
    ensures Passes(hits, b, limit, from, to) <= PassesOf(hits, b, limit, x) + PassesOf(hits, b, limit, y)
  {
    if hits != [] {
      var rest := hits[..|hits| - 1];
      assert hits == rest + [hits[|rest|]];
      assert hits[|rest|] in hits;
      TwoLifetimes(rest, b, limit, from, to, x, y);
    }
  }

  ghost predicate Inside(s: State, j: int, b: Bucket, from: real, to: real) {
    0 <= j < |s.hits| && s.hits[j].bucket == b && from <= s.hits[j].at <= to
  }

  lemma LifetimesApart(s: State, b: Bucket, i: nat, j: nat)
    requires Inv(s) && Limited(s, b) && i < |s.hits| && j < |s.hits|
    requires s.hits[i].bucket == b && s.hits[j].bucket == b && s.hits[i].life < s.hits[j].life
    ensures s.hits[i].life + Period(s, b) as real <= s.hits[j].life
  {
  }

  ghost predicate AllInside(s: State, b: Bucket, from: real, i: nat, j: nat, k: nat)
    requires Limited(s, b)
  {
    var to := from + Period(s, b) as real;
    Inside(s, i, b, from, to) && Inside(s, j, b, from, to) && Inside(s, k, b, from, to)
  }

  /** A closed interval as long as the period does not meet three lifetimes. */
  lemma NotThreeLifetimes(s: State, b: Bucket, from: real, i: nat, j: nat, k: nat)
    requires Inv(s) && Limited(s, b)
    ensures AllInside(s, b, from, i, j, k) ==> !(s.hits[i].life < s.hits[j].life < s.hits[k].life)
  {
    if AllInside(s, b, from, i, j, k) && s.hits[i].life < s.hits[j].life && s.hits[j].life <= s.hits[k].life {
      assert HitOk(s, s.hits[i]) && HitOk(s, s.hits[k]);
      LifetimesApart(s, b, i, j);
      if s.hits[j].life < s.hits[k].life {
        LifetimesApart(s, b, j, k);
      }
    }
  }

  /** A hit inside the interval whose lifetime ends by its end (early), or after it. */
  ghost predicate OnSide(s: State, k: int, b: Bucket, from: real, to: real, early: bool) {
    Inside(s, k, b, from, to) && (s.hits[k].life <= to) == early
  }

  lemma SameSide(s: State, b: Bucket, from: real, i: nat, j: nat, early: bool)
    requires Inv(s) && Limited(s, b)
    ensures var to := from + Period(s, b) as real;
      OnSide(s, i, b, from, to, early) && OnSide(s, j, b, from, to, early) ==> s.hits[i].life == s.hits[j].life
  {
    var to := from + Period(s, b) as real;
    if OnSide(s, i, b, from, to, early) && OnSide(s, j, b, from, to, early) {
      assert HitOk(s, s.hits[i]) && HitOk(s, s.hits[j]);
      if s.hits[i].life < s.hits[j].life {
        LifetimesApart(s, b, i, j);
      } else if s.hits[j].life < s.hits[i].life {
        LifetimesApart(s, b, j, i);
      }
    }
  }

  lemma SideLife(s: State, b: Bucket, from: real, early: bool) returns (x: real)
    requires Inv(s) && Limited(s, b)
    ensures forall k :: OnSide(s, k, b, from, from + Period(s, b) as real, early) ==> s.hits[k].life == x
  {
    var to := from + Period(s, b) as real;
    x := 0.0;
    if j :| OnSide(s, j, b, from, to, early) {
      x := s.hits[j].life;
      forall k | OnSide(s, k, b, from, to, early) ensures s.hits[k].life == x {
        SameSide(s, b, from, k, j, early);
      }
    }
  }

  ghost predicate Covers(s: State, b: Bucket, from: real, to: real, x: real, y: real) {
    forall k :: Inside(s, k, b, from, to) ==> s.hits[k].life == x || s.hits[k].life == y
  }

  /** Two lifetimes are all that a closed interval as long as the period meets. */
  lemma TwoLivesCover(s: State, b: Bucket, from: real) returns (x: real, y: real)
    requires Inv(s) && Limited(s, b)
    ensures Covers(s, b, from, from + Period(s, b) as real, x, y)
  {
    var to := from + Period(s, b) as real;
    x := SideLife(s, b, from, true);
    y := SideLife(s, b, from, false);
    forall k | Inside(s, k, b, from, to) ensures s.hits[k].life == x || s.hits[k].life == y {
      assert OnSide(s, k, b, from, to, true) || OnSide(s, k, b, from, to, false);
    }
  }

  /**
   Safety over every interleaving, retries after a lost window included: in any closed
   interval as long as the period, at most twice `attempts` requests of a bucket are
   counted within the limit, and at most `attempts` in any one lifetime.
   */
  lemma AtMostTwiceLimit(s: State, es: seq<Event>, b: Bucket, from: real)
    requires Initial(s) && Limited(s, b)
    ensures var limit, r := s.limits[b.scope].attempts, Run(s, es);
      Passes(r.hits, b, limit, from, from + Period(s, b) as real) <= 2 * AtLeastZero(limit)
    ensures var limit, r := s.limits[b.scope].attempts, Run(s, es);
      forall life :: PassesOf(r.hits, b, limit, life) <= AtLeastZero(limit)
  {
    RunInv(s, es);
    PassesBounded(Run(s, es), b, from);
  }

  lemma EachLifetimeBounded(s: State, b: Bucket, limit: int)
    requires HitsOk(s)
    ensures forall life :: PassesOf(s.hits, b, limit, life) <= AtLeastZero(limit)
  {
    forall life ensures PassesOf(s.hits, b, limit, life) <= AtLeastZero(limit) {
      LifetimePasses(s.hits, b, limit, life);
    }
  }

  lemma CoveredHits(s: State, b: Bucket, from: real, to: real, x: real, y: real)
    requires Covers(s, b, from, to, x, y)
    ensures forall h :: h in s.hits && h.bucket == b && from <= h.at <= to ==> h.life == x || h.life == y
  {
  }

  lemma PassesBounded(s: State, b: Bucket, from: real)
    requires Inv(s) && Limited(s, b)
    ensures var limit := s.limits[b.scope].attempts;
      && Passes(s.hits, b, limit, from, from + Period(s, b) as real) <= 2 * AtLeastZero(limit)
      && forall life :: PassesOf(s.hits, b, limit, life) <= AtLeastZero(limit)
  {
    var limit, to := s.limits[b.scope].attempts, from + Period(s, b) as real;
    EachLifetimeBounded(s, b, limit);
    var x, y := TwoLivesCover(s, b, from);
    CoveredHits(s, b, from, to, x, y);
    TwoLifetimes(s.hits, b, limit, from, to, x, y);
  }

  /** Each request has at most one hit, and its fate is decided by that hit's count. */
  ghost predicate Recorded(s: State) {
    && (forall i, j :: 0 <= i < j < |s.hits| ==> s.hits[i].request != s.hits[j].request)
    && (forall h :: h in s.hits ==>
          && h.request < |s.requests| && s.requests[h.request].bucket == h.bucket && Limited(s, h.bucket)
          && match s.requests[h.request].stage
             case Counted(c) => c == h.count
             case Admitted => h.count <= s.limits[h.bucket.scope].attempts
             case Rejected(_) => h.count > s.limits[h.bucket.scope].attempts
             case _ => false)
    && (forall r :: 0 <= r < |s.requests| ==>
          var stage := s.requests[r].stage;
          stage.Counted? || stage.Admitted? || stage.Rejected? ==> exists h :: h in s.hits && h.request == r)
  }

  lemma RecordedCount(s: State, r: nat, otherwise: Stage)
    requires Recorded(s) && r < |s.requests| && Limited(s, s.requests[r].bucket)
    requires s.requests[r].stage == HasCounter || s.requests[r].stage == HasCounterAgain
    requires otherwise == Lost || otherwise == Failed
    ensures Recorded(CountIn(s, r, otherwise))
  {
    var s' := CountIn(s, r, otherwise);
    if CounterLive(s.cache, s.requests[r].bucket, s.now) {
      assert s'.hits[|s.hits|].request == r;
      forall q | 0 <= q < |s'.requests|
                 && (var g := s'.requests[q].stage; g.Counted? || g.Admitted? || g.Rejected?)
        ensures exists h :: h in s'.hits && h.request == q
      {
        if q == r {
          assert s'.hits[|s.hits|] in s'.hits;
        } else {
          var h :| h in s.hits && h.request == q;
          assert h in s'.hits;
        }
      }
    }
  }

  /** Moving a request between stages that need no hit, or from Counted to its verdict. */
  lemma RecordedMove(s: State, t: State, r: nat, stage: Stage)
    requires Recorded(s) && t.requests == s.requests && t.hits == s.hits && t.limits == s.limits
    requires r < |s.requests|
    requires match stage
      case Counted(_) => false
      case Admitted => s.requests[r].stage.Counted? && Limited(s, s.requests[r].bucket)
        && s.requests[r].stage.count <= s.limits[s.requests[r].bucket.scope].attempts
      case Rejected(_) => s.requests[r].stage.Counted? && Limited(s, s.requests[r].bucket)
        && s.requests[r].stage.count > s.limits[s.requests[r].bucket.scope].attempts
      case _ => !s.requests[r].stage.Counted? && !s.requests[r].stage.Admitted? && !s.requests[r].stage.Rejected?
    ensures Recorded(To(t, r, stage))
  {
  }

  lemma RecordedStep(s: State, e: Event)
    requires Recorded(s)
    ensures Recorded(Next(s, e))
  {
    if Enabled(s, e) {
      match e
      case StepIncr(r) => RecordedCount(s, r, Lost);
      case StepIncrAgain(r) => RecordedCount(s, r, Failed);
      case Advance(_) =>
      case Arrive(_) =>
      case Decide(r) => RecordedMove(s, s, r, Apply(s, e).requests[r].stage);
      case _ => RecordedMove(s, s.(cache := Apply(s, e).cache), e.r, Apply(s, e).requests[e.r].stage);
    }
  }

  lemma {:induction false} RunRecorded(s: State, es: seq<Event>)
    requires Initial(s)
    ensures Recorded(Run(s, es))
  {
    if es != [] {
      RunRecorded(s, es[..|es| - 1]);
      RecordedStep(Run(s, es[..|es| - 1]), es[|es| - 1]);
    }
  }

  /** The j-th hit is request r's, and r was let through exactly if its window had counted fewer than `attempts` before. */
  ghost predicate Decides(t: State, r: nat, j: int)
    requires r < |t.requests|
  {
    && 0 <= j < |t.hits| && t.hits[j].request == r && Limited(t, t.hits[j].bucket)
    && (t.requests[r].stage.Admitted? <==>
          HitsIn(t.hits[..j], t.hits[j].bucket, t.hits[j].life) < t.limits[t.hits[j].bucket.scope].attempts)
  }

  /**
   A request is turned away only when its window already counted `attempts` others
   before it, and is let through only when it did not.
   */
  lemma DecidedByItsHit(s: State, es: seq<Event>, r: nat)
    requires Initial(s) && r < |Run(s, es).requests|
    requires var stage := Run(s, es).requests[r].stage; stage.Admitted? || stage.Rejected?
    ensures exists j :: Decides(Run(s, es), r, j)
  {
    RunInv(s, es);
    RunRecorded(s, es);
    HitDecides(Run(s, es), r);
  }

  lemma HitDecides(t: State, r: nat)
    requires HitsOk(t) && Recorded(t) && r < |t.requests|
    ensures t.requests[r].stage.Admitted? || t.requests[r].stage.Rejected? ==> exists j :: Decides(t, r, j)
  {
    if t.requests[r].stage.Admitted? || t.requests[r].stage.Rejected? {
      var h :| h in t.hits && h.request == r;
      var j :| 0 <= j < |t.hits| && t.hits[j] == h;
      assert Decides(t, r, j);
    }
  }

  /**
   A request whose window expired between its add and its incr is counted first in a new
   window of a full period, and let through as long as any request may be.
   */
  lemma ExpiredBetween(s: State, r: nat)
    requires At(s, r, HasCounter) && !CounterLive(s.cache, s.requests[r].bucket, s.now)
    ensures var b := s.requests[r].bucket;
      var t := Next(Next(Next(s, StepIncr(r)), StepReAdd(r)), StepIncrAgain(r));
      && b in t.cache.counters && t.cache.counters[b] == Counter(1, s.now + s.limits[b.scope].period as real)
      && |t.requests| == |s.requests| && t.requests[r].stage == Counted(1)
      && t.hits == s.hits + [Hit(r, b, s.now, 1, s.now + s.limits[b.scope].period as real)]
      && (Next(t, Decide(r)).requests[r].stage == Admitted <==> s.limits[b.scope].attempts >= 1)
  {
    var s1 := Next(s, StepIncr(r));
    assert s1.requests[r].stage == Lost && s1.cache == s.cache;
    var s2 := Next(s1, StepReAdd(r));
    assert s2.requests[r].stage == HasCounterAgain;
  }

  // ---------------------------------------- requests handled at one instant

  datatype Answer = Pass | TooMany(retryAfter: int)

  /** The whole wrapper at one instant: no clock tick between its cache calls. */
  function HandleAt(c: Cache, b: Bucket, limit: Limit, now: real): (r: (Cache, Answer))
    requires limit.period > 0
  {
    var c1 := AddDeadline(c, b, now + limit.period as real, now, limit.period);
    var c2 := AddCounter(c1, b, now, limit.period);
    var c3 := Incr(c2, b);
    (c3, if c3.counters[b].count > limit.attempts then TooMany(RetryAfter(c3, b, now, now, limit.period)) else Pass)
  }

  /**
   What one request does to its window: a live one counts one more and ends when it did, a
   dead one is replaced by a full period with count one; the limit decides by the new count.
   */
  lemma HandleCounts(c: Cache, b: Bucket, limit: Limit, now: real)
    requires limit.period > 0
    ensures var r := HandleAt(c, b, limit, now);
      && b in r.0.counters
      && r.0.counters[b] == (if CounterLive(c, b, now)
                             then Counter(c.counters[b].count + 1, c.counters[b].expiry)
                             else Counter(1, now + limit.period as real))
      && (r.1 == Pass <==> r.0.counters[b].count <= limit.attempts)
      && forall x :: x in c.counters && x != b ==> x in r.0.counters && r.0.counters[x] == c.counters[x]
  {
  }

  /** The five steps of one request, taken in a row. */
  function Alone(s: State, b: Bucket): seq<Event> {
    var r := |s.requests|;
    [Arrive(b), StepAddDeadline(r), StepAddCounter(r), StepIncr(r), Decide(r)]
  }

  function Counting(s: State, b: Bucket): State {
    Next(Next(Next(s, Arrive(b)), StepAddDeadline(|s.requests|)), StepAddCounter(|s.requests|))
  }

  lemma RunAlone(s: State, b: Bucket)
    ensures var r := |s.requests|;
      Run(s, Alone(s, b)) == Next(Next(Counting(s, b), StepIncr(r)), Decide(r))
  {
    var es := Alone(s, b);
    assert es[..4][..3] == es[..3] && es[..3][..2] == es[..2] && es[..2][..1] == es[..1] && es[..1][..0] == [];
    assert Run(s, es[..1]) == Next(s, es[0]);
    assert Run(s, es[..2]) == Next(Run(s, es[..1]), es[1]);
    assert Run(s, es[..3]) == Next(Run(s, es[..2]), es[2]);
    assert Run(s, es[..4]) == Next(Run(s, es[..3]), es[3]);
  }

  lemma ThreeSteps(s: State, b: Bucket)
    requires Limited(s, b)
    ensures var t, period := Counting(s, b), Period(s, b);
      && t.limits == s.limits && t.now == s.now && t.requests == s.requests + [Request(b, s.now, HasCounter)]
      && t.cache == AddCounter(AddDeadline(s.cache, b, s.now + period as real, s.now, period), b, s.now, period)
  {
  }

  lemma TwoSteps(s: State, b: Bucket, r: nat)
    requires At(s, r, HasCounter) && s.requests[r] == Request(b, s.now, HasCounter)
    requires CounterLive(s.cache, b, s.now)
    ensures var t := Next(Next(s, StepIncr(r)), Decide(r));
      var cache, limit := Incr(s.cache, b), s.limits[b.scope];
      && t.cache == cache && |t.requests| == |s.requests|
      && t.requests[r].stage ==
         if cache.counters[b].count > limit.attempts
         then Rejected(RetryAfter(cache, b, s.now, s.now, limit.period)) else Admitted
  {
  }

  /** t is s after one request of b got the answer of HandleAt. */
  predicate Handled(s: State, t: State, b: Bucket)
    requires Limited(s, b)
  {
    var h := HandleAt(s.cache, b, s.limits[b.scope], s.now);
    && t.cache == h.0 && |t.requests| == |s.requests| + 1
    && t.requests[|s.requests|].stage == match h.1 case Pass => Admitted case TooMany(n) => Rejected(n)
  }

  lemma HandledAlone(s: State, b: Bucket)
    requires Limited(s, b)
    ensures var r := |s.requests|; Handled(s, Next(Next(Counting(s, b), StepIncr(r)), Decide(r)), b)
  {
    ThreeSteps(s, b);
    TwoSteps(Counting(s, b), b, |s.requests|);
  }

  /** Handling a request at one instant is the schedule that lets nothing else in between. */
  lemma HandleIsASchedule(s: State, b: Bucket)
    requires Limited(s, b)
    ensures Handled(s, Run(s, Alone(s, b)), b)
  {
    RunAlone(s, b);
    HandledAlone(s, b);
  }

  /** The same in plain terms: alone, a request of a known scope with a window gets the wrapper's answer at once. */
  lemma RequestAlone(s: State, b: Bucket)
    requires b.scope in s.limits && s.limits[b.scope].period > 0
    ensures var limit := s.limits[b.scope];
      var t, h := Run(s, Alone(s, b)), HandleAt(s.cache, b, limit, s.now);
      && t.cache == h.0 && |t.requests| == |s.requests| + 1
      && (h.1.Pass? ==> t.requests[|s.requests|].stage == Admitted)
      && (h.1.TooMany? ==> t.requests[|s.requests|].stage == Rejected(h.1.retryAfter))
  {
    HandleIsASchedule(s, b);
  }

  /** For example, one attempt a minute: a second one after 10.5 seconds is told to wait 50 seconds. */
  lemma SecondAttempt(b: Bucket)
    ensures var first := HandleAt(Cache(map[], map[]), b, Limit(1, 60), 0.0);
      first.1 == Pass && HandleAt(first.0, b, Limit(1, 60), 10.5).1 == TooMany(50)
  {
    assert (10.5 - 60.0).Floor == -50;
  }

  /** Counter and deadline of a bucket come and go together, and the stored deadline is the counter's expiry. */
  ghost predicate Lockstep(c: Cache) {
    && c.counters.Keys == c.deadlines.Keys
    && forall b :: b in c.counters ==>
         c.deadlines[b].expiry == c.counters[b].expiry && c.deadlines[b].value == c.counters[b].expiry
  }

  lemma HandleKeepsLockstep(c: Cache, b: Bucket, limit: Limit, now: real)
    requires Lockstep(c) && limit.period > 0
    ensures var r := HandleAt(c, b, limit, now); Lockstep(r.0) && CounterLive(r.0, b, now)
  {
  }

  /** Calls handled one after another, each at its own instant. */
  datatype Call = Call(bucket: Bucket, at: real)

  predicate Serves(limits: map<string, Limit>, calls: seq<Call>) {
    && (forall i :: 0 <= i < |calls| ==>
          calls[i].bucket.scope in limits && limits[calls[i].bucket.scope].period > 0)
    && (forall i, j :: 0 <= i < j < |calls| ==> calls[i].at <= calls[j].at)
  }

  function CacheAfter(limits: map<string, Limit>, calls: seq<Call>): Cache
    requires Serves(limits, calls)
  {
    if calls == [] then Cache(map[], map[])
    else
      var last := calls[|calls| - 1];
      HandleAt(CacheAfter(limits, calls[..|calls| - 1]), last.bucket, limits[last.bucket.scope], last.at).0
  }

  lemma CacheAfterOneMore(limits: map<string, Limit>, calls: seq<Call>, b: Bucket, at: real)
    requires Serves(limits, calls + [Call(b, at)])
    ensures Serves(limits, calls) && b.scope in limits && limits[b.scope].period > 0
    ensures CacheAfter(limits, []) == Cache(map[], map[])
    ensures CacheAfter(limits, calls + [Call(b, at)]) == HandleAt(CacheAfter(limits, calls), b, limits[b.scope], at).0
  {
    var more := calls + [Call(b, at)];
    assert more[..|calls|] == calls && more[|calls|] == Call(b, at);
    forall i | 0 <= i < |calls| ensures calls[i] == more[i] {
    }
  }

  lemma {:induction false} CacheAfterOk(limits: map<string, Limit>, calls: seq<Call>)
    requires Serves(limits, calls)
    ensures var c := CacheAfter(limits, calls);
      && Lockstep(c)
      && (forall b :: b in c.counters ==>
            calls != [] && b.scope in limits
            && c.counters[b].expiry <= calls[|calls| - 1].at + limits[b.scope].period as real)
  {
    if calls != [] {
      var last := calls[|calls| - 1];
      CacheAfterOk(limits, calls[..|calls| - 1]);
      HandleKeepsLockstep(CacheAfter(limits, calls[..|calls| - 1]), last.bucket, limits[last.bucket.scope], last.at);
    }
  }

  /**
   The answer is the time left in the window rounded up; it needs no clamping; the window
   is over that many seconds later and not one second sooner.
   */
  predicate ExactRetry(c: Cache, b: Bucket, retryAfter: int, now: real, period: int) {
    && b in c.counters
    && retryAfter == Ceiling(c.counters[b].expiry - now)
    && 1 <= retryAfter <= period
    && !CounterLive(c, b, now + retryAfter as real)
    && CounterLive(c, b, now + (retryAfter - 1) as real)
  }

  lemma RetryAfterOf(c: Cache, b: Bucket, limit: Limit, now: real)
    requires Lockstep(c) && limit.period > 0 && HandleAt(c, b, limit, now).1.TooMany?
    requires CounterLive(c, b, now) ==> c.counters[b].expiry <= now + limit.period as real
    ensures var r := HandleAt(c, b, limit, now); ExactRetry(r.0, b, r.1.retryAfter, now, limit.period)
  {
  }

  /**
   Retry-After (section 10.2.3 of RFC 9110) is exact in every run of instant calls, so a
   call made that many seconds later is never counted in the old window.
   */
  lemma RetryAfterExact(limits: map<string, Limit>, calls: seq<Call>, b: Bucket, now: real)
    requires Serves(limits, calls) && b.scope in limits && limits[b.scope].period > 0
    requires calls != [] ==> calls[|calls| - 1].at <= now
    requires HandleAt(CacheAfter(limits, calls), b, limits[b.scope], now).1.TooMany?
    ensures var r := HandleAt(CacheAfter(limits, calls), b, limits[b.scope], now);
      && ExactRetry(r.0, b, r.1.retryAfter, now, limits[b.scope].period)
      && b in r.0.counters && 1 <= r.1.retryAfter <= limits[b.scope].period
      && now + (r.1.retryAfter - 1) as real < r.0.counters[b].expiry <= now + r.1.retryAfter as real
  {
    CacheAfterOk(limits, calls);
    RetryAfterOf(CacheAfter(limits, calls), b, limits[b.scope], now);
  }

  /** The wrapper in its own form: the cache changes call by call. */
  class RateLimiter {
    var cache: Cache
    const limits: map<string, Limit>

    constructor (limits: map<string, Limit>)
      ensures this.limits == limits && cache == Cache(map[], map[])
    {
      this.limits := limits;
      cache := Cache(map[], map[]);
    }

    /** Handles one request at instant `now`; a scope with no positive period is not limited. */
    method Handle(b: Bucket, now: real) returns (answer: Answer)
      requires b.scope in limits
      modifies this
      ensures limits[b.scope].period <= 0 ==> answer == Pass && cache == old(cache)
      ensures limits[b.scope].period > 0 ==>
        (cache, answer) == HandleAt(old(cache), b, limits[b.scope], now)
      ensures Lockstep(old(cache)) ==> Lockstep(cache)
    {
      var limit := limits[b.scope];
      if limit.period <= 0 {
        return Pass;
      }
      cache := AddDeadline(cache, b, now + limit.period as real, now, limit.period);
      cache := AddCounter(cache, b, now, limit.period);
      // incr cannot miss here: nothing expires between the two calls at one instant.
      assert CounterLive(cache, b, now);
      cache := Incr(cache, b);
      var count := cache.counters[b].count;
      if count > limit.attempts {
        answer := TooMany(RetryAfter(cache, b, now, now, limit.period));
      } else {
        answer := Pass;
      }
    }
  }
}
