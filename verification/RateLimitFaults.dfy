/** What EXPIREs that fail do to the rate bound. `Allow` does not look at their reply, so such calls are allowed
    without an error. */
module RateLimitFaults {
  import opened Wrappers
  import opened RateLimit

  /** A call at this time, and what becomes of its EXPIRE. */
  datatype Visit = Visit(at: int, expire: Fault)

  predicate Allows(cfg: Config, k: Option<Kept>, v: Visit) {
    Called(cfg, k, v.at, Works, Works, v.expire).1 == Some(true)
  }

  function After(cfg: Config, k: Option<Kept>, v: Visit): Option<Kept> {
    Called(cfg, k, v.at, Works, Works, v.expire).0
  }

  /** The number of allowed calls in a run. */
  function AllowedIn(cfg: Config, k: Option<Kept>, visits: seq<Visit>): nat
    decreases |visits|
  {
    if visits == [] then 0
    else (if Allows(cfg, k, visits[0]) then 1 else 0) + AllowedIn(cfg, After(cfg, k, visits[0]), visits[1..])
  }

  function EndOf(cfg: Config, k: Option<Kept>, visits: seq<Visit>): Option<Kept>
    decreases |visits|
  {
    if visits == [] then k else EndOf(cfg, After(cfg, k, visits[0]), visits[1..])
  }

  /** The calls come in order, from t0 to t1. */
  predicate InOrder(t0: int, visits: seq<Visit>, t1: int)
    decreases |visits|
  {
    if visits == [] then t0 <= t1 else t0 <= visits[0].at && InOrder(visits[0].at, visits[1..], t1)
  }

  // ---------- the bound

  // A key that a run can leave by time t.
  ghost predicate KeptInv(cfg: Config, k: Option<Kept>, t: int) {
    && BucketInv(cfg, BucketIn(k), t)
    && (k.Some? && k.value.deadline.Some? ==> k.value.deadline.value <= t + EXPIRY_MS)
  }

  // Part of a burst, in proportion to the time.
  function Share(cfg: Config, ms: int): real {
    Burst(cfg) * (ms as real / 300_000.0)
  }

  // What the key's deadline has in store: the burst that it will bring, in so far as it has come closer.
  function InStore(cfg: Config, deadline: Option<int>, t: int): real {
    match deadline
    case None => 0.0
    case Some(d) => Burst(cfg) - Share(cfg, d - t)
  }

  /** The tokens at time t, and what is in store. */
  function Potential(cfg: Config, k: Option<Kept>, t: int): real {
    match Standing(k, t)
    case None => Burst(cfg)
    case Some(kept) => Available(cfg, Some(kept.bucket), t) + InStore(cfg, kept.deadline, t)
  }

  lemma ShareBounds(cfg: Config, ms: int)
    requires Sane(cfg)
    ensures ms >= 0 ==> Share(cfg, ms) >= 0.0
    ensures ms <= EXPIRY_MS ==> Share(cfg, ms) <= Burst(cfg)
  {
    var x := ms as real / 300_000.0;
    if ms >= 0 { assert Burst(cfg) * x >= 0.0; }
    if ms <= EXPIRY_MS { assert Burst(cfg) * (1.0 - x) >= 0.0; }
  }

  lemma SharesAdd(cfg: Config, a: int, b: int)
    ensures Share(cfg, a + b) == Share(cfg, a) + Share(cfg, b)
  {
    assert (a + b) as real / 300_000.0 == a as real / 300_000.0 + b as real / 300_000.0;
  }

  lemma AvailableBounds(cfg: Config, b: Bucket, t: int)
    requires Sane(cfg) && BucketInv(cfg, Some(b), t)
    ensures 0.0 <= Available(cfg, Some(b), t) <= Burst(cfg)
  {
    RefillGrows(cfg.rate, t - b.lastRefill, t - b.lastRefill);
    hide Refill;
  }

  lemma PotentialBounds(cfg: Config, k: Option<Kept>, t: int)
    requires Sane(cfg) && KeptInv(cfg, k, t)
    ensures 0.0 <= Potential(cfg, k, t) <= 2.0 * Burst(cfg)
  {
    hide Available, Share, BucketInv;
    if Standing(k, t).Some? {
      AvailableBounds(cfg, k.value.bucket, t);
      if k.value.deadline.Some? { ShareBounds(cfg, k.value.deadline.value - t); }
    }
  }

  // Time adds the refill, and a share of the burst.
  lemma PotentialRises(cfg: Config, k: Option<Kept>, t: int, t': int)
    requires Sane(cfg) && KeptInv(cfg, k, t) && t <= t'
    ensures Potential(cfg, k, t') <= Potential(cfg, k, t) + Refill(cfg.rate, t' - t) + Share(cfg, t' - t)
  {
    hide BucketInv;
    RefillGrows(cfg.rate, 0, t' - t);
    ShareBounds(cfg, t' - t);
    if Standing(k, t).Some? {
      AvailableBounds(cfg, k.value.bucket, t);
      if Standing(k, t').Some? {
        AvailableRises(cfg, k.value.bucket, t, t');
        if k.value.deadline.Some? { SharesAdd(cfg, k.value.deadline.value - t', t' - t); }
      } else {
        var d := k.value.deadline.value;
        ShareGrows(cfg, d - t, t' - t);
      }
    }
    hide Available, Refill, Share;
  }

  lemma ShareGrows(cfg: Config, ms: int, ms': int)
    requires Sane(cfg) && ms <= ms'
    ensures Share(cfg, ms) <= Share(cfg, ms')
  {
    ShareBounds(cfg, ms' - ms);
    SharesAdd(cfg, ms, ms' - ms);
    hide Share;
  }

  lemma AvailableRises(cfg: Config, b: Bucket, t: int, t': int)
    requires Sane(cfg) && t <= t'
    ensures Available(cfg, Some(b), t') <= Available(cfg, Some(b), t) + Refill(cfg.rate, t' - t)
  {
    RefillGrows(cfg.rate, t - b.lastRefill, t' - b.lastRefill);
    RefillGrows(cfg.rate, 0, t' - t);
    assert t' - b.lastRefill - (t - b.lastRefill) == t' - t;
    hide Refill;
  }

  lemma VisitKeepsInv(cfg: Config, k: Option<Kept>, v: Visit)
    requires Sane(cfg) && KeptInv(cfg, k, v.at)
    ensures KeptInv(cfg, After(cfg, k, v), v.at)
  {
    var seen := BucketIn(Standing(k, v.at));
    if Allowed(cfg, seen, v.at) {
      NextKeepsInv(cfg, false, seen, v.at);
    }
    hide Available, Round2, BucketInv;
  }

  // What is just written holds what it says.
  lemma JustWritten(cfg: Config, tokens: real, t: int)
    requires tokens <= Burst(cfg)
    ensures Available(cfg, Some(Bucket(tokens, t)), t) == tokens
  {
    NoTimeNoRefill(cfg.rate);
  }

  // An allowed call lowers the potential by 0.995 or more, whatever becomes of its EXPIRE.
  lemma VisitCosts(cfg: Config, k: Option<Kept>, v: Visit)
    requires Sane(cfg) && KeptInv(cfg, k, v.at)
    ensures var paid := if Allows(cfg, k, v) then 0.995 else 0.0;
      Potential(cfg, After(cfg, k, v), v.at) + paid <= Potential(cfg, k, v.at)
  {
    if Allows(cfg, k, v) { AllowedVisitCosts(cfg, k, v); }
  }

  lemma AllowedVisitCosts(cfg: Config, k: Option<Kept>, v: Visit)
    requires Sane(cfg) && KeptInv(cfg, k, v.at) && Allows(cfg, k, v)
    ensures Potential(cfg, After(cfg, k, v), v.at) + 0.995 <= Potential(cfg, k, v.at)
  {
    hide Round2, Share, BucketInv;
    var standing := Standing(k, v.at);
    var seen := BucketIn(standing);
    var a := Available(cfg, seen, v.at);
    RoundBounds(a - 1.0);
    RoundIsMonotone(a - 1.0, Burst(cfg) - 1.0);
    RoundOfInteger(cfg.burst - 1);
    assert (cfg.burst - 1) as real == Burst(cfg) - 1.0;
    JustWritten(cfg, Round2(a - 1.0), v.at);
    ShareOfExpiry(cfg);
    if standing.Some? && standing.value.deadline.Some? { ShareBounds(cfg, standing.value.deadline.value - v.at); }
    hide Available;
  }

  lemma ShareOfExpiry(cfg: Config)
    ensures Share(cfg, EXPIRY_MS) == Burst(cfg)
  {
  }

  lemma {:induction false} PotentialPays(cfg: Config, k: Option<Kept>, t0: int, visits: seq<Visit>, t1: int)
    requires Sane(cfg) && KeptInv(cfg, k, t0) && InOrder(t0, visits, t1)
    ensures t0 <= t1
    ensures 0.995 * AllowedIn(cfg, k, visits) as real
      <= Potential(cfg, k, t0) + Refill(cfg.rate, t1 - t0) + Share(cfg, t1 - t0)
    decreases |visits|
  {
    hide Potential, KeptInv, Allows, After, Refill, Share;
    if visits == [] {
      PotentialBounds(cfg, k, t0);
      RefillGrows(cfg.rate, 0, t1 - t0);
      ShareBounds(cfg, t1 - t0);
    } else {
      var v := visits[0];
      LaterKeepsInv(cfg, k, t0, v.at);
      VisitKeepsInv(cfg, k, v);
      PotentialRises(cfg, k, t0, v.at);
      VisitCosts(cfg, k, v);
      PotentialPays(cfg, After(cfg, k, v), v.at, visits[1..], t1);
      RefillGrows(cfg.rate, v.at - t0, t1 - t0);
      assert t1 - t0 - (v.at - t0) == t1 - v.at;
      SharesAdd(cfg, v.at - t0, t1 - v.at);
      assert v.at - t0 + (t1 - v.at) == t1 - t0;
    }
  }

  lemma LaterKeepsInv(cfg: Config, k: Option<Kept>, t: int, t': int)
    requires KeptInv(cfg, k, t) && t <= t'
    ensures KeptInv(cfg, k, t')
  {
  }

  lemma {:induction false} EndKeepsInv(cfg: Config, k: Option<Kept>, t0: int, visits: seq<Visit>, t1: int)
    requires Sane(cfg) && KeptInv(cfg, k, t0) && InOrder(t0, visits, t1)
    ensures KeptInv(cfg, EndOf(cfg, k, visits), t1)
    decreases |visits|
  {
    hide KeptInv, After;
    if visits == [] {
      LaterKeepsInv(cfg, k, t0, t1);
    } else {
      LaterKeepsInv(cfg, k, t0, visits[0].at);
      VisitKeepsInv(cfg, k, visits[0]);
      EndKeepsInv(cfg, After(cfg, k, visits[0]), visits[0].at, visits[1..], t1);
    }
  }

  lemma NoKeyYet(cfg: Config, t: int)
    ensures KeptInv(cfg, None, t)
  {
  }

  /** With EXPIREs that fail as they like, the deadlines they leave bring at most one more burst, and one for every
      300 s: 0.995 times the calls allowed in a window is at most 2 * burst + (rate + burst/300) * time. */
  lemma BoundWithLostExpires(cfg: Config, start: int, before: seq<Visit>, t0: int, window: seq<Visit>, t1: int)
    requires Sane(cfg) && InOrder(start, before, t0) && InOrder(t0, window, t1)
    ensures 0.995 * AllowedIn(cfg, EndOf(cfg, None, before), window) as real
      <= 2.0 * Burst(cfg) + Refill(cfg.rate, t1 - t0) + Share(cfg, t1 - t0)
  {
    hide Refill, Share, Potential, KeptInv;
    NoKeyYet(cfg, start);
    EndKeepsInv(cfg, None, start, before, t0);
    PotentialPays(cfg, EndOf(cfg, None, before), t0, window, t1);
    PotentialBounds(cfg, EndOf(cfg, None, before), t0);
  }

  // ---------- and a run in which they do

  // n calls at once whose EXPIREs fail.
  function Lost(t: int, n: nat): (visits: seq<Visit>)
    ensures |visits| == n
  {
    if n == 0 then [] else [Visit(t, FailsBefore)] + Lost(t, n - 1)
  }

  // With m whole tokens and a deadline to come, m calls are allowed and the deadline is still to come.
  lemma {:induction false} DrainsKey(cfg: Config, k: Option<Kept>, t: int, m: nat)
    requires m <= cfg.burst && Standing(k, t) == k
    requires Available(cfg, BucketIn(k), t) == m as real
    ensures AllowedIn(cfg, k, Lost(t, m)) == m
    ensures m > 0 ==> EndOf(cfg, k, Lost(t, m)).Some?
    ensures m > 0 && k.Some? ==> EndOf(cfg, k, Lost(t, m)).value.deadline == k.value.deadline
    decreases m
  {
    if m > 0 {
      var v := Visit(t, FailsBefore);
      assert Lost(t, m)[0] == v && Lost(t, m)[1..] == Lost(t, m - 1);
      OneLess(cfg, k, t, m);
      DrainsKey(cfg, After(cfg, k, v), t, m - 1);
      hide Called;
    }
  }

  lemma OneLess(cfg: Config, k: Option<Kept>, t: int, m: nat)
    requires 0 < m <= cfg.burst && Standing(k, t) == k && Available(cfg, BucketIn(k), t) == m as real
    ensures var v := Visit(t, FailsBefore);
      var k' := After(cfg, k, v);
      && Allows(cfg, k, v) && k'.Some? && k'.value.deadline == (if k.Some? then k.value.deadline else None)
      && Standing(k', t) == k' && Available(cfg, BucketIn(k'), t) == (m - 1) as real
  {
    hide Round2;
    RoundOfInteger(m - 1);
    assert (m - 1) as real == m as real - 1.0;
    JustWritten(cfg, (m - 1) as real, t);
    hide Available;
  }

  lemma {:induction false} EndsAppend(cfg: Config, k: Option<Kept>, a: seq<Visit>, b: seq<Visit>)
    ensures EndOf(cfg, k, a + b) == EndOf(cfg, EndOf(cfg, k, a), b)
    ensures AllowedIn(cfg, k, a + b) == AllowedIn(cfg, k, a) + AllowedIn(cfg, EndOf(cfg, k, a), b)
    decreases |a|
  {
    hide After, Allows;
    if a == [] {
      assert a + b == b;
    } else {
      assert (a + b)[1..] == a[1..] + b;
      EndsAppend(cfg, After(cfg, k, a[0]), a[1..], b);
    }
  }

  lemma {:induction false} LostInOrder(t: int, n: nat, rest: seq<Visit>, t1: int)
    requires InOrder(t, rest, t1)
    ensures InOrder(t, Lost(t, n) + rest, t1)
    decreases n
  {
    if n == 0 {
      assert Lost(t, n) + rest == rest;
    } else {
      assert (Lost(t, n) + rest)[1..] == Lost(t, n - 1) + rest;
      LostInOrder(t, n - 1, rest, t1);
    }
  }

  // One call whose EXPIRE works, long before.
  const FIRST := Visit(0, Works)

  // The bursts on either side of that deadline.
  function AroundDeadline(n: nat): seq<Visit> {
    Lost(EXPIRY_MS - 1, n) + Lost(EXPIRY_MS, n)
  }

  lemma FullBeforeDeadline(cfg: Config)
    requires cfg.burst >= 1 && cfg.rate >= 1.0
    ensures var k := After(cfg, None, FIRST); var t := EXPIRY_MS - 1;
      && k.Some? && k.value.deadline == Some(EXPIRY_MS) && Standing(k, t) == k
      && Available(cfg, BucketIn(k), t) == cfg.burst as real
  {
    hide Round2;
    RoundOfInteger(cfg.burst - 1);
    assert (cfg.burst - 1) as real == Burst(cfg) - 1.0;
    RefillGrows(cfg.rate, 1000, EXPIRY_MS - 1);
  }

  /** The second burst is real: at a token a second or more, two bursts are allowed within a millisecond. */
  lemma LostExpiresAllowTwoBursts(cfg: Config)
    requires cfg.burst >= 1 && cfg.rate >= 1.0
    ensures InOrder(0, [FIRST], EXPIRY_MS - 1) && InOrder(EXPIRY_MS - 1, AroundDeadline(cfg.burst), EXPIRY_MS)
    ensures AllowedIn(cfg, EndOf(cfg, None, [FIRST]), AroundDeadline(cfg.burst)) == 2 * cfg.burst
  {
    var (n, t) := (cfg.burst, EXPIRY_MS - 1);
    var k := After(cfg, None, FIRST);
    assert EndOf(cfg, None, [FIRST]) == k;
    FullBeforeDeadline(cfg);
    DrainsKey(cfg, k, t, n);
    GoneAtDeadline(cfg, EndOf(cfg, k, Lost(t, n)), n);
    EndsAppend(cfg, k, Lost(t, n), Lost(EXPIRY_MS, n));
    assert Lost(EXPIRY_MS, n) + [] == Lost(EXPIRY_MS, n);
    LostInOrder(EXPIRY_MS, n, [], EXPIRY_MS);
    StartsLater(EXPIRY_MS - 1, EXPIRY_MS, Lost(EXPIRY_MS, n));
    LostInOrder(t, n, Lost(EXPIRY_MS, n), EXPIRY_MS);
  }

  lemma StartsLater(t: int, t': int, visits: seq<Visit>)
    requires t <= t' && InOrder(t', visits, t')
    ensures InOrder(t, visits, t')
  {
  }

  // An expired key is no key.
  lemma GoneAtDeadline(cfg: Config, k: Option<Kept>, n: nat)
    requires k.Some? && k.value.deadline == Some(EXPIRY_MS) && n == cfg.burst > 0
    ensures AllowedIn(cfg, k, Lost(EXPIRY_MS, n)) == n
  {
    var v := Visit(EXPIRY_MS, FailsBefore);
    assert Lost(EXPIRY_MS, n)[0] == v && Lost(EXPIRY_MS, n)[1..] == Lost(EXPIRY_MS, n - 1);
    assert Called(cfg, k, v.at, Works, Works, v.expire) == Called(cfg, None, v.at, Works, Works, v.expire);
    DrainsKey(cfg, None, EXPIRY_MS, n);
  }
}
