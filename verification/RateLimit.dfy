/** The Redis token bucket: `Allow`, and what a run of calls on one key can do. */
module RateLimit {
  import opened Wrappers

  datatype Config = Config(rate: real, burst: int)

  // The hash under one key: tokens with two decimals, and the time of the last refill in milliseconds.
  datatype Bucket = Bucket(tokens: real, lastRefill: int)

  const EXPIRY_MS := 300_000

  // ---------- rounding

  /** fmt.Sprintf("%.2f", x) read back: the nearest hundredth, ties to even. */
  function Round2(x: real): real {
    var n := (100.0 * x).Floor;
    var f := 100.0 * x - n as real;
    (if f < 0.5 || (f == 0.5 && n % 2 == 0) then n else n + 1) as real / 100.0
  }

  lemma RoundBounds(x: real)
    ensures x - 0.005 <= Round2(x) <= x + 0.005
    ensures x >= 0.0 ==> Round2(x) >= 0.0
  {
  }

  lemma RoundOfInteger(n: int)
    ensures Round2(n as real) == n as real
  {
    RoundOfHundredth(100 * n);
  }

  // Already a multiple of 1/100.
  lemma RoundOfHundredth(m: int)
    ensures Round2(m as real / 100.0) == m as real / 100.0
  {
    assert (m as real).Floor == m;
  }

  lemma RoundIsHundredth(x: real) returns (m: int)
    ensures Round2(x) == m as real / 100.0
  {
    var n := (100.0 * x).Floor;
    var f := 100.0 * x - n as real;
    m := if f < 0.5 || (f == 0.5 && n % 2 == 0) then n else n + 1;
  }

  lemma RoundIsMonotone(x: real, y: real)
    requires x <= y
    ensures Round2(x) <= Round2(y)
  {
    assert (100.0 * x).Floor <= (100.0 * y).Floor;
  }

  /** It is a nearest hundredth, and of two nearest ones the even. */
  lemma RoundIsNearest(m: int)
    ensures Round2((2 * m) as real / 200.0) == m as real / 100.0
    ensures Round2((2 * m + 1) as real / 200.0) == (if m % 2 == 0 then m else m + 1) as real / 100.0
    ensures forall x :: m as real / 100.0 - 0.005 < x < m as real / 100.0 + 0.005 ==> Round2(x) == m as real / 100.0
  {
    assert (100.0 * ((2 * m + 1) as real / 200.0)).Floor == m;
    forall x | m as real / 100.0 - 0.005 < x < m as real / 100.0 + 0.005 ensures Round2(x) == m as real / 100.0 {
      assert (100.0 * x).Floor == m || (100.0 * x).Floor == m - 1;
    }
  }

  // ---------- one call

  function Min(a: real, b: real): real {
    if a < b then a else b
  }

  function Burst(cfg: Config): real {
    cfg.burst as real
  }

  // What HMGET sees at `now`: the key is gone once 300 s have passed since it was written.
  function Seen(b: Option<Bucket>, now: int): Option<Bucket> {
    if b.Some? && now - b.value.lastRefill >= EXPIRY_MS then None else b
  }

  // Tokens that `rate` adds in some milliseconds.
  function Refill(rate: real, ms: int): real {
    ms as real / 1000.0 * rate
  }

  /** The tokens after the refill. */
  function Available(cfg: Config, seen: Option<Bucket>, now: int): real {
    match seen
    case None => Burst(cfg)
    case Some(b) => Min(b.tokens + Refill(cfg.rate, now - b.lastRefill), Burst(cfg))
  }

  predicate Allowed(cfg: Config, seen: Option<Bucket>, now: int) {
    Available(cfg, seen, now) >= 1.0
  }

  /** What an allowed call writes. */
  function Consumed(cfg: Config, seen: Option<Bucket>, now: int): Bucket {
    Bucket(Round2(Available(cfg, seen, now) - 1.0), now)
  }

  /** The key after a call at `now`: a rejection writes nothing. `expires` is off for the ideal limiter that
      never loses a key. */
  function Next(cfg: Config, expires: bool, b: Option<Bucket>, now: int): Option<Bucket> {
    var seen := if expires then Seen(b, now) else b;
    if Allowed(cfg, seen, now) then Some(Consumed(cfg, seen, now)) else b
  }

  predicate Decision(cfg: Config, expires: bool, b: Option<Bucket>, now: int) {
    Allowed(cfg, if expires then Seen(b, now) else b, now)
  }

  lemma NoTimeNoRefill(rate: real)
    ensures Refill(rate, 0) == 0.0
  {
  }

  lemma OtherKeys(keyPrefix: string, key: string)
    ensures forall other: string :: other != key ==> keyPrefix + ":" + other != keyPrefix + ":" + key
  {
    forall other: string | other != key ensures keyPrefix + ":" + other != keyPrefix + ":" + key {
      assert (keyPrefix + ":" + other)[|keyPrefix| + 1..] == other;
      assert (keyPrefix + ":" + key)[|keyPrefix| + 1..] == key;
    }
  }

  // ---------- one call on the keys, faults included

  /** A Redis command works, takes effect while its reply is an error, or only fails. */
  datatype Fault = Works | FailsAfter | FailsBefore

  /** A key: its hash, and the time at which it expires, if it has one. */
  datatype Kept = Kept(bucket: Bucket, deadline: Option<int>)

  // What is left of the key at `now`.
  function Standing(k: Option<Kept>, now: int): Option<Kept> {
    if k.Some? && k.value.deadline.Some? && k.value.deadline.value <= now then None else k
  }

  function BucketIn(k: Option<Kept>): Option<Bucket> {
    match k
    case None => None
    case Some(kept) => Some(kept.bucket)
  }

  /** HMGET, and on enough tokens HMSET and EXPIRE: what the key becomes, and the answer, where None is an error.
      HMSET leaves an old deadline in force, and the reply to EXPIRE is not looked at. */
  function Called(cfg: Config, k: Option<Kept>, now: int, read: Fault, write: Fault, expire: Fault)
    : (Option<Kept>, Option<bool>)
  {
    var standing := Standing(k, now);
    var seen := BucketIn(standing);
    if !read.Works? then (k, None)
    else if !Allowed(cfg, seen, now) then (k, Some(false))
    else if write.FailsBefore? then (k, None)
    else
      var deadline := if standing.Some? then standing.value.deadline else None;
      if write.FailsAfter? then (Some(Kept(Consumed(cfg, seen, now), deadline)), None)
      else
        var later := if expire.FailsBefore? then deadline else Some(now + EXPIRY_MS);
        (Some(Kept(Consumed(cfg, seen, now), later)), Some(true))
  }

  /** What a call is answered: an error when HMGET fails, and when HMSET does, which runs only on a whole token;
      otherwise whether there was one. Only a call that gets to HMSET changes anything. */
  lemma CallAnswers(cfg: Config, k: Option<Kept>, now: int, read: Fault, write: Fault, expire: Fault)
    ensures var (k', answer) := Called(cfg, k, now, read, write, expire);
      var whole := Available(cfg, BucketIn(Standing(k, now)), now) >= 1.0;
      && (answer == None <==> read != Works || (whole && write != Works))
      && (answer == Some(true) <==> read == Works && whole && write == Works)
      && (read != Works || !whole || write == FailsBefore ==> k' == k)
  {
    hide Available, Round2;
  }

  // The deadline that every call without a fault sets.
  predicate Timely(k: Option<Kept>) {
    k.Some? ==> k.value.deadline == Some(k.value.bucket.lastRefill + EXPIRY_MS)
  }

  /** Calls without faults decide and write as the bucket rules say, and the key keeps expiring 300 s after the
      last write. */
  lemma FaultFreeCall(cfg: Config, k: Option<Kept>, now: int)
    requires Timely(k)
    ensures var (k', answer) := Called(cfg, k, now, Works, Works, Works);
      && answer == Some(Decision(cfg, true, BucketIn(k), now))
      && BucketIn(k') == Next(cfg, true, BucketIn(k), now) && Timely(k')
  {
    hide Available, Round2;
    assert BucketIn(Standing(k, now)) == Seen(BucketIn(k), now);
  }

  /** A call that does not get as far as EXPIRE, or whose EXPIRE fails, leaves the old deadline in force: however
      few tokens it leaves, the key is gone and the bucket full again when that deadline comes. */
  lemma LostExpireKeepsDeadline(cfg: Config, k: Option<Kept>, now: int, write: Fault, expire: Fault, later: int)
    requires Standing(k, now).Some? && k.value.deadline.Some? && k.value.deadline.value <= later
    requires write.FailsAfter? || (write.Works? && expire.FailsBefore?)
    ensures var (k', _) := Called(cfg, k, now, Works, write, expire);
      Standing(k', later) == None && Available(cfg, BucketIn(Standing(k', later)), later) == Burst(cfg)
  {
    hide Round2, Allowed;
  }

  /** Allow, on the hashes of all keys. */
  class Limiter {
    const cfg: Config
    const keyPrefix: string
    var redis: map<string, Kept>

    constructor (keyPrefix: string, cfg: Config)
      ensures this.cfg == cfg && this.keyPrefix == keyPrefix && redis == map[]
    {
      this.keyPrefix, this.cfg, redis := keyPrefix, cfg, map[];
    }

    function KeyOf(key: string): Option<Kept>
      reads this
    {
      var fullKey := keyPrefix + ":" + key;
      if fullKey in redis then Some(redis[fullKey]) else None
    }

    method Allow(key: string, now: int, read: Fault, write: Fault, expire: Fault) returns (allowed: Option<bool>)
      modifies this
      ensures (KeyOf(key), allowed) == Called(cfg, old(KeyOf(key)), now, read, write, expire)
      ensures read.Works? && write.Works? && expire.Works? && Timely(old(KeyOf(key))) ==>
        && allowed == Some(Decision(cfg, true, BucketIn(old(KeyOf(key))), now))
        && BucketIn(KeyOf(key)) == Next(cfg, true, BucketIn(old(KeyOf(key))), now) && Timely(KeyOf(key))
      ensures forall other :: other != key ==> KeyOf(other) == old(KeyOf(other))
    {
      hide Refill, Round2, Next, Decision;
      var fullKey := keyPrefix + ":" + key;
      var k := KeyOf(key);
      if Timely(k) { FaultFreeCall(cfg, k, now); }
      if !read.Works? { return None; }
      var standing := Standing(k, now);
      var tokens, lastRefill := cfg.burst as real, now;
      if standing.Some? {
        tokens, lastRefill := standing.value.bucket.tokens, standing.value.bucket.lastRefill;
      }
      NoTimeNoRefill(cfg.rate);
      tokens := Min(tokens + Refill(cfg.rate, now - lastRefill), cfg.burst as real);
      if tokens >= 1.0 {
        tokens := tokens - 1.0;
        OtherKeys(keyPrefix, key);
        if write.FailsBefore? { return None; }
        var deadline := if standing.Some? then standing.value.deadline else None;
        redis := redis[fullKey := Kept(Bucket(Round2(tokens), now), deadline)];
        if write.FailsAfter? { return None; }
        if !expire.FailsBefore? {
          redis := redis[fullKey := redis[fullKey].(deadline := Some(now + EXPIRY_MS))];
        }
        return Some(true);
      }
      return Some(false);
    }
  }

  // ---------- runs on one key

  predicate Ordered(times: seq<int>) {
    forall i, j :: 0 <= i < j < |times| ==> times[i] <= times[j]
  }

  function Final(cfg: Config, expires: bool, b: Option<Bucket>, times: seq<int>): Option<Bucket>
    decreases times
  {
    if times == [] then b else Final(cfg, expires, Next(cfg, expires, b, times[0]), times[1..])
  }

  function Decisions(cfg: Config, expires: bool, b: Option<Bucket>, times: seq<int>): (ds: seq<bool>)
    ensures |ds| == |times|
    decreases times
  {
    if times == [] then []
    else [Decision(cfg, expires, b, times[0])] + Decisions(cfg, expires, Next(cfg, expires, b, times[0]), times[1..])
  }

  function Count(ds: seq<bool>): nat {
    if ds == [] then 0 else (if ds[0] then 1 else 0) + Count(ds[1..])
  }

  predicate Sane(cfg: Config) {
    cfg.rate >= 0.0 && cfg.burst >= 0
  }

  function Hundredth(m: int): real {
    m as real / 100.0
  }

  // A bucket that a run can leave by time t.
  ghost predicate BucketInv(cfg: Config, b: Option<Bucket>, t: int) {
    b.Some? ==>
      && 0.0 <= b.value.tokens <= Burst(cfg) - 1.0 && b.value.lastRefill <= t
      && exists m: nat :: b.value.tokens == Hundredth(m)
  }

  lemma RefillGrows(rate: real, ms: int, ms': int)
    requires rate >= 0.0 && ms <= ms'
    ensures Refill(rate, ms) <= Refill(rate, ms')
    ensures ms >= 0 ==> Refill(rate, ms) >= 0.0
    ensures Refill(rate, ms') == Refill(rate, ms) + Refill(rate, ms' - ms)
  {
    assert Refill(rate, ms') - Refill(rate, ms) == (ms' - ms) as real / 1000.0 * rate;
  }

  lemma NextKeepsInv(cfg: Config, expires: bool, b: Option<Bucket>, now: int)
    requires Sane(cfg) && BucketInv(cfg, b, now)
    ensures BucketInv(cfg, Next(cfg, expires, b, now), now)
  {
    hide Round2, Refill;
    var seen := if expires then Seen(b, now) else b;
    var a := Available(cfg, seen, now);
    if a >= 1.0 {
      RoundBounds(a - 1.0);
      RoundIsMonotone(a - 1.0, Burst(cfg) - 1.0);
      RoundOfInteger(cfg.burst - 1);
      assert (cfg.burst - 1) as real == Burst(cfg) - 1.0;
      var m := RoundIsHundredth(a - 1.0);
      assert Round2(a - 1.0) == Hundredth(m);
    }
  }

  lemma {:induction false} FinalKeepsInv(cfg: Config, expires: bool, b: Option<Bucket>, t0: int, times: seq<int>)
    requires Sane(cfg) && BucketInv(cfg, b, t0) && Ordered([t0] + times)
    ensures BucketInv(cfg, Final(cfg, expires, b, times), if times == [] then t0 else times[|times| - 1])
    decreases times
  {
    if times != [] {
      assert ([t0] + times)[0] <= ([t0] + times)[1];
      NextKeepsInv(cfg, expires, b, times[0]);
      OrderedTail(t0, times);
      FinalKeepsInv(cfg, expires, Next(cfg, expires, b, times[0]), times[0], times[1..]);
    }
  }

  lemma OrderedTail(t0: int, times: seq<int>)
    requires Ordered([t0] + times) && times != []
    ensures t0 <= times[0] && Ordered([times[0]] + times[1..])
  {
    assert [times[0]] + times[1..] == ([t0] + times)[1..];
    assert ([t0] + times)[0] <= ([t0] + times)[1];
  }

  // ---------- the rate bound

  // The rate at which tokens really come back: an idle key is full again after 300 s.
  function EffectiveRate(cfg: Config): real {
    var perExpiry := Burst(cfg) / 300.0;
    if cfg.rate < perExpiry then perExpiry else cfg.rate
  }

  // The tokens there would be at `now` at the effective rate.
  function Level(cfg: Config, b: Option<Bucket>, now: int): real {
    Available(cfg.(rate := EffectiveRate(cfg)), b, now)
  }

  lemma FullAfterExpiry(cfg: Config, ms: int)
    requires Sane(cfg) && ms >= EXPIRY_MS
    ensures Refill(EffectiveRate(cfg), ms) >= Burst(cfg)
  {
    RefillGrows(EffectiveRate(cfg), EXPIRY_MS, ms);
    assert Refill(EffectiveRate(cfg), EXPIRY_MS) == 300.0 * EffectiveRate(cfg);
  }

  lemma RefillByRate(rate: real, rate': real, ms: int)
    requires rate <= rate' && ms >= 0
    ensures Refill(rate, ms) <= Refill(rate', ms)
  {
  }

  // A call never finds more than the level.
  lemma AvailableIsBelowLevel(cfg: Config, b: Option<Bucket>, now: int)
    requires Sane(cfg) && BucketInv(cfg, b, now)
    ensures Available(cfg, Seen(b, now), now) <= Level(cfg, b, now) <= Burst(cfg)
    ensures Level(cfg, b, now) >= 0.0
  {
    hide Refill;
    if b.Some? {
      var ms := now - b.value.lastRefill;
      RefillGrows(EffectiveRate(cfg), 0, ms);
      RefillGrows(EffectiveRate(cfg), ms, ms);
      RefillByRate(cfg.rate, EffectiveRate(cfg), ms);
      if ms >= EXPIRY_MS { FullAfterExpiry(cfg, ms); }
    }
  }

  // What there is after waiting on m hundredths, up to the burst.
  function Waited(cfg: Config, m: nat, ms: nat): real {
    Min(Hundredth(m) + Refill(cfg.rate, ms), Burst(cfg))
  }

  /** An allowed call takes at least this much from the bucket, the rounding included. */
  ghost predicate Costs(cfg: Config, cost: real) {
    && cost <= 1.0
    && forall m: nat, ms: nat :: Waited(cfg, m, ms) >= 1.0 ==>
      Round2(Waited(cfg, m, ms) - 1.0) + cost <= Waited(cfg, m, ms)
  }

  lemma AlwaysCosts(cfg: Config)
    ensures Costs(cfg, 0.995)
  {
    hide Round2, Waited;
    forall m: nat, ms: nat | Waited(cfg, m, ms) >= 1.0
      ensures Round2(Waited(cfg, m, ms) - 1.0) + 0.995 <= Waited(cfg, m, ms)
    {
      RoundBounds(Waited(cfg, m, ms) - 1.0);
    }
  }

  lemma CallCosts(cfg: Config, cost: real, b: Option<Bucket>, now: int)
    requires Sane(cfg) && Costs(cfg, cost) && BucketInv(cfg, b, now) && Allowed(cfg, Seen(b, now), now)
    ensures Consumed(cfg, Seen(b, now), now).tokens + cost <= Available(cfg, Seen(b, now), now)
  {
    hide Round2, Refill;
    if Seen(b, now).Some? {
      var m: nat :| b.value.tokens == Hundredth(m);
      assert Available(cfg, b, now) == Waited(cfg, m, now - b.value.lastRefill);
    } else {
      RoundOfInteger(cfg.burst - 1);
      assert (cfg.burst - 1) as real == Burst(cfg) - 1.0;
    }
  }

  // An allowed call lowers the level by its cost; a rejected one leaves it.
  lemma CallLowersLevel(cfg: Config, cost: real, b: Option<Bucket>, now: int)
    requires Sane(cfg) && Costs(cfg, cost) && BucketInv(cfg, b, now)
    ensures var paid := if Decision(cfg, true, b, now) then cost else 0.0;
      Level(cfg, Next(cfg, true, b, now), now) + paid <= Level(cfg, b, now)
  {
    hide Round2, Costs;
    AvailableIsBelowLevel(cfg, b, now);
    if Decision(cfg, true, b, now) { CallCosts(cfg, cost, b, now); }
  }

  lemma LevelRises(cfg: Config, b: Option<Bucket>, t: int, t': int)
    requires Sane(cfg) && BucketInv(cfg, b, t) && t <= t'
    ensures Level(cfg, b, t') <= Level(cfg, b, t) + Refill(EffectiveRate(cfg), t' - t)
  {
    hide Refill;
    RefillGrows(EffectiveRate(cfg), 0, t' - t);
    if b.Some? {
      RefillGrows(EffectiveRate(cfg), t - b.value.lastRefill, t' - b.value.lastRefill);
    }
  }

  // One call, the time before it included.
  lemma CallAfterWait(cfg: Config, cost: real, b: Option<Bucket>, t0: int, t: int)
    requires Sane(cfg) && Costs(cfg, cost) && BucketInv(cfg, b, t0) && t0 <= t
    ensures BucketInv(cfg, Next(cfg, true, b, t), t)
    ensures var paid := if Decision(cfg, true, b, t) then cost else 0.0;
      Level(cfg, Next(cfg, true, b, t), t) + paid <= Level(cfg, b, t0) + Refill(EffectiveRate(cfg), t - t0)
  {
    assert BucketInv(cfg, b, t);
    hide Level, Next, Decision, Refill, Costs;
    NextKeepsInv(cfg, true, b, t);
    CallLowersLevel(cfg, cost, b, t);
    LevelRises(cfg, b, t0, t);
  }

  lemma RefillsAddUp(cfg: Config, t0: int, t: int, t1: int)
    requires Sane(cfg) && t0 <= t <= t1
    ensures var r := EffectiveRate(cfg);
      Refill(r, t1 - t0) == Refill(r, t - t0) + Refill(r, t1 - t) && Refill(r, t1 - t0) >= 0.0
  {
    hide Refill;
    RefillGrows(EffectiveRate(cfg), t - t0, t1 - t0);
    RefillGrows(EffectiveRate(cfg), 0, t1 - t0);
  }

  lemma {:induction false} LevelPaysForCalls(cfg: Config, cost: real, b: Option<Bucket>, t0: int, times: seq<int>,
      t1: int)
    requires Sane(cfg) && Costs(cfg, cost) && BucketInv(cfg, b, t0) && Ordered([t0] + times + [t1])
    ensures var paid := cost * Count(Decisions(cfg, true, b, times)) as real;
      paid <= Level(cfg, b, t0) + Refill(EffectiveRate(cfg), t1 - t0)
    decreases times
  {
    hide Level, Next, Decision, EffectiveRate, Refill, BucketInv, Costs;
    var all := [t0] + times + [t1];
    assert all[0] <= all[1] <= all[|all| - 1];
    if times == [] {
      AvailableIsBelowLevel(cfg, b, t0);
      RefillsAddUp(cfg, t0, t0, t1);
    } else {
      var (t, b') := (times[0], Next(cfg, true, b, times[0]));
      assert [t] + times[1..] + [t1] == all[1..];
      CallAfterWait(cfg, cost, b, t0, t);
      LevelPaysForCalls(cfg, cost, b', t, times[1..], t1);
      RefillsAddUp(cfg, t0, t, t1);
      PaidSoFar(cost, Decision(cfg, true, b, t), Count(Decisions(cfg, true, b', times[1..])));
    }
  }

  lemma PaidSoFar(cost: real, allowed: bool, n: nat)
    ensures cost * ((if allowed then 1 else 0) + n) as real == (if allowed then cost else 0.0) + cost * n as real
  {
  }

  // The bucket that a run leaves for the window behind it.
  lemma BeforeWindow(cfg: Config, before: seq<int>, t0: int, window: seq<int>, t1: int)
    requires Sane(cfg) && Ordered(before + [t0] + window + [t1])
    ensures BucketInv(cfg, Final(cfg, true, None, before), t0) && Ordered([t0] + window + [t1])
  {
    var all := before + [t0] + window + [t1];
    if before != [] {
      var twice := [before[0]] + before;
      forall i, j | 0 <= i < j < |twice| ensures twice[i] <= twice[j] {
        assert i > 0 ==> all[i - 1] <= all[j - 1];
        assert i == 0 && j > 1 ==> all[0] <= all[j - 1];
      }
      FinalKeepsInv(cfg, true, None, before[0], before);
      assert all[|before| - 1] <= all[|before|];
    }
    assert [t0] + window + [t1] == all[|before|..];
  }

  /** The rate bound, for whatever an allowed call costs: however the calls fall inside the window, and whatever
      happened on the key before, the allowed ones are paid for by the burst and the refill of the window. The
      rate is raised to burst/300 where the key expiry refills faster than the configured rate. */
  lemma BoundByCost(cfg: Config, cost: real, before: seq<int>, t0: int, window: seq<int>, t1: int)
    requires Sane(cfg) && Costs(cfg, cost) && Ordered(before + [t0] + window + [t1])
    ensures var b := Final(cfg, true, None, before);
      cost * Count(Decisions(cfg, true, b, window)) as real <= Burst(cfg) + Refill(EffectiveRate(cfg), t1 - t0)
  {
    hide Refill, Costs, Level, EffectiveRate, Ordered, BucketInv, Available, Decisions, Count, Final;
    BeforeWindow(cfg, before, t0, window, t1);
    var b := Final(cfg, true, None, before);
    LevelPaysForCalls(cfg, cost, b, t0, window, t1);
    AvailableIsBelowLevel(cfg, b, t0);
  }

  /** For every configuration the allowed calls are at most (burst + rate * window) / 0.995. */
  lemma RateBound(cfg: Config, before: seq<int>, t0: int, window: seq<int>, t1: int)
    requires Sane(cfg) && Ordered(before + [t0] + window + [t1])
    ensures var b := Final(cfg, true, None, before);
      0.995 * Count(Decisions(cfg, true, b, window)) as real <= Burst(cfg) + Refill(EffectiveRate(cfg), t1 - t0)
  {
    hide Refill, Costs, EffectiveRate, Ordered, Decisions, Count, Final;
    AlwaysCosts(cfg);
    BoundByCost(cfg, 0.995, before, t0, window, t1);
  }

  /** With 300 * rate >= burst the expiry never helps, and the bound is the configured one. */
  lemma ConfiguredRateBound(cfg: Config, before: seq<int>, t0: int, window: seq<int>, t1: int)
    requires Sane(cfg) && 300.0 * cfg.rate >= Burst(cfg) && Ordered(before + [t0] + window + [t1])
    ensures var b := Final(cfg, true, None, before);
      0.995 * Count(Decisions(cfg, true, b, window)) as real <= Burst(cfg) + Refill(cfg.rate, t1 - t0)
  {
    assert EffectiveRate(cfg) == cfg.rate;
    hide EffectiveRate, Ordered, Refill;
    RateBound(cfg, before, t0, window, t1);
  }
}
