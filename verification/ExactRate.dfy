/** The rate bound without the allowance for rounding: when it holds, and when rounding breaks it. */
module ExactRate {
  import opened Wrappers
  import opened RateLimit

  /** Over any window of any run, at most burst + rate * time calls are allowed. */
  ghost predicate PlainBound(cfg: Config) {
    forall before, t0, window, t1 :: Ordered(before + [t0] + window + [t1]) ==>
      WithinPlainBound(cfg, before, t0, window, t1)
  }

  predicate WithinPlainBound(cfg: Config, before: seq<int>, t0: int, window: seq<int>, t1: int) {
    var allowed := Count(Decisions(cfg, true, Final(cfg, true, None, before), window));
    allowed as real <= Burst(cfg) + Refill(EffectiveRate(cfg), t1 - t0)
  }

  // ---------- where it holds

  /** It holds when no call is ever rounded up. */
  lemma NoGainNoExcess(cfg: Config)
    requires Sane(cfg) && Costs(cfg, 1.0)
    ensures PlainBound(cfg)
  {
    hide Costs, Refill;
    forall before, t0, window, t1 | Ordered(before + [t0] + window + [t1])
      ensures WithinPlainBound(cfg, before, t0, window, t1)
    {
      BoundByCost(cfg, 1.0, before, t0, window, t1);
    }
  }

  /** It holds at every multiple of ten tokens a second: ten are a hundredth in a millisecond. */
  lemma TenfoldRateIsExact(k: nat, burst: nat)
    ensures PlainBound(Config((10 * k) as real, burst))
  {
    var cfg := Config((10 * k) as real, burst);
    forall m: nat, ms: nat | Waited(cfg, m, ms) >= 1.0
      ensures Round2(Waited(cfg, m, ms) - 1.0) + 1.0 <= Waited(cfg, m, ms)
    {
      WholeHundredths(k, burst, m, ms);
    }
    NoGainNoExcess(cfg);
  }

  lemma WholeHundredths(k: nat, burst: nat, m: nat, ms: nat)
    ensures var a := Waited(Config((10 * k) as real, burst), m, ms); Round2(a - 1.0) == a - 1.0
  {
    var cfg := Config((10 * k) as real, burst);
    hide Round2;
    assert Refill(cfg.rate, ms) == Hundredth(k * ms);
    var n := if m + k * ms < 100 * burst then m + k * ms else 100 * burst;
    assert Waited(cfg, m, ms) == Hundredth(n);
    RoundOfHundredth(n - 100);
    assert Hundredth(n) - 1.0 == (n - 100) as real / 100.0;
  }

  /** The configuration that the middleware uses by default. */
  lemma DefaultIsExact()
    ensures PlainBound(Config(10.0, 20))
  {
    TenfoldRateIsExact(1, 20);
  }

  /** A bucket that holds one token at most is empty after every allowed call. */
  lemma SingleTokenIsExact(cfg: Config)
    requires Sane(cfg) && cfg.burst <= 1
    ensures PlainBound(cfg)
  {
    RoundOfInteger(0);
    NoGainNoExcess(cfg);
  }

  /** It holds where a millisecond fills the bucket: a call finds whole hundredths, or the burst. */
  lemma FastRateIsExact(cfg: Config)
    requires Sane(cfg) && cfg.rate >= 1000.0 * Burst(cfg)
    ensures PlainBound(cfg)
  {
    forall m: nat, ms: nat | Waited(cfg, m, ms) >= 1.0
      ensures Round2(Waited(cfg, m, ms) - 1.0) + 1.0 <= Waited(cfg, m, ms)
    {
      NoWaitOrFull(cfg, m, ms);
    }
    NoGainNoExcess(cfg);
  }

  lemma NoWaitOrFull(cfg: Config, m: nat, ms: nat)
    requires Sane(cfg) && cfg.rate >= 1000.0 * Burst(cfg)
    ensures var a := Waited(cfg, m, ms); Round2(a - 1.0) == a - 1.0
  {
    hide Round2;
    NoTimeNoRefill(cfg.rate);
    var n := if ms == 0 && m < 100 * cfg.burst then m else 100 * cfg.burst;
    if ms > 0 {
      assert Refill(cfg.rate, 1) >= Burst(cfg);
      RefillGrows(cfg.rate, 1, ms);
    }
    hide Refill;
    assert Waited(cfg, m, ms) == Hundredth(n);
    RoundOfHundredth(n - 100);
    assert Hundredth(n) - 1.0 == (n - 100) as real / 100.0;
  }

  // ---------- where it does not

  // From m hundredths there is a wait after which a call is allowed and rounded up by g or more.
  ghost predicate GainsFrom(cfg: Config, g: real, m: nat) {
    exists ms: nat :: Gains(cfg, g, m, ms)
  }

  predicate Gains(cfg: Config, g: real, m: nat, ms: nat) {
    var a := Hundredth(m) + Refill(cfg.rate, ms);
    1.0 <= a < Burst(cfg) && a - 1.0 + g <= Round2(a - 1.0)
  }

  // A call on k hundredths or more: one token goes, with no time for a refill.
  lemma CallAtOnce(cfg: Config, m: nat, t: int)
    requires 100 <= m <= 100 * (cfg.burst - 1)
    ensures Decision(cfg, true, Some(Bucket(Hundredth(m), t)), t)
    ensures Next(cfg, true, Some(Bucket(Hundredth(m), t)), t) == Some(Bucket(Hundredth(m - 100), t))
  {
    hide Round2;
    assert Available(cfg, Some(Bucket(Hundredth(m), t)), t) == Hundredth(m);
    RoundOfHundredth(m - 100);
    assert Hundredth(m) - 1.0 == (m - 100) as real / 100.0;
  }

  lemma NotExpired(cfg: Config, m: nat, ms: nat)
    requires Sane(cfg) && 300.0 * cfg.rate >= Burst(cfg) && Hundredth(m) + Refill(cfg.rate, ms) < Burst(cfg)
    ensures ms < EXPIRY_MS
  {
    assert Refill(cfg.rate, EXPIRY_MS) == 300.0 * cfg.rate;
    hide Refill;
    if ms >= EXPIRY_MS { RefillGrows(cfg.rate, EXPIRY_MS, ms); }
  }

  // A call that gains: it leaves m' hundredths, which is g more than is paid for.
  lemma GainingCall(cfg: Config, g: real, m: nat, t: int, ms: nat) returns (m': nat)
    requires Sane(cfg) && 300.0 * cfg.rate >= Burst(cfg) && Gains(cfg, g, m, ms)
    ensures Decision(cfg, true, Some(Bucket(Hundredth(m), t)), t + ms)
    ensures Next(cfg, true, Some(Bucket(Hundredth(m), t)), t + ms) == Some(Bucket(Hundredth(m'), t + ms))
    ensures m' <= 100 * (cfg.burst - 1)
    ensures Hundredth(m) + Refill(cfg.rate, ms) + g <= Hundredth(m') + 1.0
  {
    hide Round2, Refill;
    NotExpired(cfg, m, ms);
    var a := Hundredth(m) + Refill(cfg.rate, ms);
    assert Available(cfg, Some(Bucket(Hundredth(m), t)), t + ms) == a;
    RoundBounds(a - 1.0);
    RoundIsMonotone(a - 1.0, (cfg.burst - 1) as real);
    RoundOfInteger(cfg.burst - 1);
    m' := RoundIsHundredth(a - 1.0);
  }

  // The bookkeeping of one more call in front of a run.
  lemma CallFirst(cfg: Config, b: Option<Bucket>, t: int, times: seq<int>)
    ensures Count(Decisions(cfg, true, b, [t] + times)) ==
      (if Decision(cfg, true, b, t) then 1 else 0) + Count(Decisions(cfg, true, Next(cfg, true, b, t), times))
  {
    hide Decision, Next;
    assert ([t] + times)[1..] == times;
  }

  lemma OrderedFirst(t: int, t0: int, times: seq<int>, t1: int)
    requires t <= t0 && Ordered([t0] + times + [t1])
    ensures Ordered([t] + ([t0] + times) + [t1])
  {
    var (all, rest) := ([t] + ([t0] + times) + [t1], [t0] + times + [t1]);
    assert all[1..] == rest;
    forall i, j | 0 <= i < j < |all| ensures all[i] <= all[j] {
      assert all[j] == rest[j - 1];
      assert rest[0] <= rest[j - 1];
      if i > 0 { assert all[i] == rest[i - 1]; }
    }
  }

  // What n gains of g add up to, when the calls are paid for by the tokens that were there.
  ghost predicate Gained(cfg: Config, g: real, m: nat, t: int, n: nat, times: seq<int>, m': nat, t': int) {
    && t <= t' && Ordered([t] + times + [t']) && m' <= 100 * (cfg.burst - 1)
    && var allowed := Count(Decisions(cfg, true, Some(Bucket(Hundredth(m), t)), times));
       Hundredth(m) + Refill(cfg.rate, t' - t) + n as real * g <= Hundredth(m') + allowed as real
  }

  lemma GainedAtOnce(cfg: Config, g: real, m: nat, t: int, n: nat, times: seq<int>, m': nat, t': int)
    requires 100 <= m <= 100 * (cfg.burst - 1) && Gained(cfg, g, m - 100, t, n, times, m', t')
    ensures Gained(cfg, g, m, t, n, [t] + times, m', t')
  {
    hide Refill, Next, Decision, Ordered;
    CallAtOnce(cfg, m, t);
    CallFirst(cfg, Some(Bucket(Hundredth(m), t)), t, times);
    OrderedFirst(t, t, times, t');
    assert Hundredth(m) == Hundredth(m - 100) + 1.0;
    hide Decisions, Count;
  }

  lemma GainedAfterWait(cfg: Config, g: real, m: nat, t: int, ms: nat, n: nat, l: nat, times: seq<int>, m': nat,
      t': int)
    requires Sane(cfg) && 300.0 * cfg.rate >= Burst(cfg) && Gains(cfg, g, m, ms)
    requires Next(cfg, true, Some(Bucket(Hundredth(m), t)), t + ms) == Some(Bucket(Hundredth(l), t + ms))
    requires Hundredth(m) + Refill(cfg.rate, ms) + g <= Hundredth(l) + 1.0
    requires Decision(cfg, true, Some(Bucket(Hundredth(m), t)), t + ms)
    requires Gained(cfg, g, l, t + ms, n, times, m', t')
    ensures Gained(cfg, g, m, t, n + 1, [t + ms] + times, m', t')
  {
    hide Refill, Next, Decision, Ordered, Decisions, Count, Gains, Hundredth;
    CallFirst(cfg, Some(Bucket(Hundredth(m), t)), t + ms, times);
    OrderedFirst(t, t + ms, times, t');
    RefillGrows(cfg.rate, ms, t' - t);
    assert t' - t - ms == t' - (t + ms);
    OneMoreGain(n, g);
    assert Refill(cfg.rate, t' - t) == Refill(cfg.rate, ms) + Refill(cfg.rate, t' - (t + ms));
    var rest := Count(Decisions(cfg, true, Some(Bucket(Hundredth(l), t + ms)), times));
    assert Hundredth(l) + Refill(cfg.rate, t' - (t + ms)) + n as real * g <= Hundredth(m') + rest as real;
    assert Count(Decisions(cfg, true, Some(Bucket(Hundredth(m), t)), [t + ms] + times)) == 1 + rest;
  }

  lemma OneMoreGain(n: nat, g: real)
    ensures (n + 1) as real * g == n as real * g + g
  {
  }

  // A run in which n calls gain. Those in between empty the bucket down to less than a token.
  lemma {:induction false} GainingRun(cfg: Config, g: real, m: nat, t: int, n: nat)
    returns (times: seq<int>, m': nat, t': int)
    requires Sane(cfg) && 300.0 * cfg.rate >= Burst(cfg) && m <= 100 * (cfg.burst - 1)
    requires forall l: nat :: l < 100 ==> GainsFrom(cfg, g, l)
    ensures Gained(cfg, g, m, t, n, times, m', t')
    decreases n, m
  {
    if n == 0 {
      times, m', t' := [], m, t;
      NoTimeNoRefill(cfg.rate);
    } else if m >= 100 {
      hide Gained;
      times, m', t' := GainingRun(cfg, g, m - 100, t, n);
      GainedAtOnce(cfg, g, m, t, n, times, m', t');
      times := [t] + times;
    } else {
      hide Gained, Gains, Next, Decision, Hundredth;
      assert GainsFrom(cfg, g, m);
      var ms: nat :| Gains(cfg, g, m, ms);
      var l := GainingCall(cfg, g, m, t, ms);
      times, m', t' := GainingRun(cfg, g, l, t + ms, n - 1);
      GainedAfterWait(cfg, g, m, t, ms, n - 1, l, times, m', t');
      times := [t + ms] + times;
    }
  }

  lemma FirstCall(cfg: Config)
    requires cfg.burst >= 1
    ensures Decision(cfg, true, None, 0)
    ensures Next(cfg, true, None, 0) == Some(Bucket(Hundredth(100 * (cfg.burst - 1)), 0))
  {
    hide Round2;
    RoundOfInteger(cfg.burst - 1);
    assert Hundredth(100 * (cfg.burst - 1)) == (cfg.burst - 1) as real == Burst(cfg) - 1.0;
  }

  // Enough gains to pay for whatever is left at the end.
  lemma GainsExceed(cfg: Config, g: real, n: nat, times: seq<int>, m': nat, t': int)
    requires cfg.burst >= 1 && 300.0 * cfg.rate >= Burst(cfg) && n as real * g > Burst(cfg)
    requires Gained(cfg, g, 100 * (cfg.burst - 1), 0, n, times, m', t')
    ensures !PlainBound(cfg)
  {
    var m := 100 * (cfg.burst - 1);
    FirstCall(cfg);
    CallFirst(cfg, None, 0, times);
    OrderedFirst(0, 0, times, t');
    assert [] + [0] + ([0] + times) + [t'] == [0] + ([0] + times) + [t'];
    assert EffectiveRate(cfg) == cfg.rate && Final(cfg, true, None, []) == None;
    assert Hundredth(m) == Burst(cfg) - 1.0 && Hundredth(m') <= Burst(cfg) - 1.0;
    hide Refill, Next, Decision, Ordered, Decisions, Count, Hundredth, EffectiveRate;
    assert !WithinPlainBound(cfg, [], 0, [0] + times, t');
  }

  /** The plain bound fails when a call can gain from wherever the bucket stands. */
  lemma GainsBreakBound(cfg: Config, g: real)
    requires Sane(cfg) && cfg.burst >= 1 && 300.0 * cfg.rate >= Burst(cfg) && g > 0.0
    requires forall l: nat :: l < 100 ==> GainsFrom(cfg, g, l)
    ensures !PlainBound(cfg)
  {
    var n: nat := (Burst(cfg) / g).Floor + 1;
    assert n as real > Burst(cfg) / g;
    assert n as real * g > Burst(cfg) by { ScaleUp(n as real, Burst(cfg), g); }
    var times, m', t' := GainingRun(cfg, g, 100 * (cfg.burst - 1), 0, n);
    GainsExceed(cfg, g, n, times, m', t');
  }

  lemma ScaleUp(x: real, b: real, g: real)
    requires g > 0.0 && x > b / g
    ensures x * g > b
  {
    assert b / g * g == b;
  }

  // The part of a hundredth.
  function Part(x: real): real {
    100.0 * x - (100.0 * x).Floor as real
  }

  lemma PartGains(m: nat, x: real)
    requires Part(x) > 0.5
    ensures var a := Hundredth(m) + x; a - 1.0 + (1.0 - Part(x)) / 100.0 <= Round2(a - 1.0)
  {
    var n := (100.0 * x).Floor;
    var y := Hundredth(m) + x - 1.0;
    assert 100.0 * y == (n + m - 100) as real + Part(x);
    assert (100.0 * y).Floor == n + m - 100;
  }

  /** At any rate that fills the bucket in 300 s, a wait that refills at least one token and at most burst - 1,
      and ends in more than half a hundredth, breaks the bound. */
  lemma FractionBreaksBound(cfg: Config, ms: nat)
    requires Sane(cfg) && 300.0 * cfg.rate >= Burst(cfg)
    requires 1.0 <= Refill(cfg.rate, ms) <= Burst(cfg) - 1.0 && Part(Refill(cfg.rate, ms)) > 0.5
    ensures !PlainBound(cfg)
  {
    hide Refill, PlainBound, Round2;
    var g := (1.0 - Part(Refill(cfg.rate, ms))) / 100.0;
    forall m: nat | m < 100 ensures GainsFrom(cfg, g, m) {
      PartGains(m, Refill(cfg.rate, ms));
      assert Gains(cfg, g, m, ms);
    }
    GainsBreakBound(cfg, g);
  }

  // ---------- whole numbers of tokens a second

  // In thousandths: what is rounded up, by a thousandth of a token or more.
  predicate RoundsUp(z: int) {
    z % 10 >= 6 || (z % 10 == 5 && z / 10 % 2 == 1)
  }

  lemma RoundedUp(z: int)
    requires RoundsUp(z)
    ensures z as real / 1000.0 - 1.0 + 0.001 <= Round2(z as real / 1000.0 - 1.0)
  {
    var x := z as real / 1000.0 - 1.0;
    var n := z / 10 - 100;
    assert 100.0 * x == n as real + (z % 10) as real / 10.0;
    assert (100.0 * x).Floor == n;
  }

  lemma LastDigit(r: nat, ms: nat)
    ensures (r * ms) % 10 == ((r % 10) * (ms % 10)) % 10
  {
    var (a, k, b, d) := (r / 10, r % 10, ms / 10, ms % 10);
    assert r * ms == (10 * a + k) * (10 * b + d);
    assert r * ms == 10 * (10 * a * b + a * d + k * b) + k * d;
    TensOff(10 * a * b + a * d + k * b, k * d);
  }

  lemma TensOff(q: int, x: int)
    ensures (10 * q + x) % 10 == x % 10
  {
  }

  // A last digit of the wait that takes the product to 6 or more.
  function Digit(k: int): nat {
    if k == 1 then 6 else if k == 2 then 3 else if k == 3 || k == 4 then 2 else 1
  }

  lemma DigitWorks(k: int)
    requires 0 < k < 10 && k != 5
    ensures (k * Digit(k)) % 10 >= 6 && Digit(k) < 10
  {
  }

  // What there is after a wait of ms on m hundredths, in thousandths.
  function Thousandths(r: nat, m: nat, ms: nat): nat {
    10 * m + r * ms
  }

  // The first wait that refills to a whole token.
  lemma FirstWait(r: nat, m: nat) returns (lo: nat)
    requires r > 0 && m < 100
    ensures 1000 <= Thousandths(r, m, lo) < 1000 + r
  {
    var need := 1000 - 10 * m;
    lo := (need + r - 1) / r;
    assert need + r - 1 == r * lo + (need + r - 1) % r;
  }

  // Later waits go up by r each.
  lemma LaterWait(r: nat, m: nat, lo: nat, j: nat)
    requires j < 10
    ensures Thousandths(r, m, lo) <= Thousandths(r, m, lo + j) <= Thousandths(r, m, lo) + 9 * r
  {
    assert r * (lo + j) == r * lo + r * j && 0 <= r * j <= r * 9;
  }

  lemma LastDigitAfter(r: nat, m: nat, ms: nat)
    ensures Thousandths(r, m, ms) % 10 == ((r % 10) * (ms % 10)) % 10
  {
    LastDigit(r, ms);
    TensOff(m, r * ms);
  }

  lemma JumpTo(lo: nat, d: nat) returns (j: nat)
    requires d < 10
    ensures j < 10 && (lo + j) % 10 == d
  {
    j := (d - lo) % 10;
  }

  /** At a rate that is not a multiple of ten, one of ten waits in a row makes the call round up. */
  lemma RoundsUpSoon(r: nat, m: nat) returns (ms: nat)
    requires r % 10 != 0 && m < 100
    ensures 1000 <= Thousandths(r, m, ms) < 1000 + 10 * r && RoundsUp(Thousandths(r, m, ms))
  {
    hide Thousandths;
    var lo := FirstWait(r, m);
    if r % 10 != 5 {
      DigitWorks(r % 10);
      var j := JumpTo(lo, Digit(r % 10));
      ms := lo + j;
      LaterWait(r, m, lo, j);
      LastDigitAfter(r, m, ms);
    } else {
      ms := RoundsUpOnTie(r, m, lo);
    }
  }

  // An odd wait ends in half a hundredth.
  lemma TieAt(r: nat, m: nat, lo: nat, j: nat)
    requires r % 10 == 5 && j < 10 && (lo + j) % 2 == 1 && 1000 <= Thousandths(r, m, lo) < 1000 + r
    ensures 1000 <= Thousandths(r, m, lo + j) < 1000 + 10 * r && Thousandths(r, m, lo + j) % 10 == 5
  {
    hide Thousandths;
    LaterWait(r, m, lo, j);
    LastDigitAfter(r, m, lo + j);
    OddDigit(lo + j);
  }

  lemma TwoMore(r: nat, m: nat, n: nat)
    ensures Thousandths(r, m, n + 2) == Thousandths(r, m, n) + 2 * r
  {
  }

  // Halves round to even: of two odd waits in a row one meets an odd number of hundredths.
  lemma RoundsUpOnTie(r: nat, m: nat, lo: nat) returns (ms: nat)
    requires r % 10 == 5 && m < 100 && 1000 <= Thousandths(r, m, lo) < 1000 + r
    ensures 1000 <= Thousandths(r, m, ms) < 1000 + 10 * r && RoundsUp(Thousandths(r, m, ms))
  {
    hide Thousandths;
    var j := if lo % 2 == 1 then 0 else 1;
    TieAt(r, m, lo, j);
    TieAt(r, m, lo, j + 2);
    TwoMore(r, m, lo + j);
    TieFlips(Thousandths(r, m, lo + j), r);
    ms := if Thousandths(r, m, lo + j) / 10 % 2 == 1 then lo + j else lo + j + 2;
  }

  lemma OddDigit(n: nat)
    requires n % 2 == 1
    ensures (5 * (n % 10)) % 10 == 5
  {
    TensAreEven(n / 10, n % 10);
    FiveTimesOdd(n % 10);
  }

  lemma TensAreEven(tens: nat, d: nat)
    ensures (10 * tens + d) % 2 == d % 2
  {
    assert 10 * tens + d == 2 * (5 * tens + d / 2) + d % 2;
    TwiceAndOne(5 * tens + d / 2, d % 2);
  }

  lemma TwiceAndOne(x: nat, b: nat)
    requires b < 2
    ensures (2 * x + b) % 2 == b
  {
  }

  lemma FiveTimesOdd(d: nat)
    requires d < 10 && d % 2 == 1
    ensures (5 * d) % 10 == 5
  {
    assert d == 1 || d == 3 || d == 5 || d == 7 || d == 9;
  }

  lemma TieFlips(z: int, r: nat)
    requires z % 10 == 5 && r % 10 == 5
    ensures (z + 2 * r) % 10 == 5 && (z + 2 * r) / 10 % 2 != z / 10 % 2
  {
    assert z + 2 * r == 10 * (z / 10 + 2 * (r / 10) + 1) + 5;
  }

  lemma WholeRateGains(r: nat, burst: nat, m: nat)
    requires r % 10 != 0 && r <= 100 * (burst - 1) && m < 100
    ensures GainsFrom(Config(r as real, burst), 0.001, m)
  {
    var ms := RoundsUpSoon(r, m);
    var z := Thousandths(r, m, ms);
    var cfg := Config(r as real, burst);
    assert Hundredth(m) + Refill(cfg.rate, ms) == z as real / 1000.0;
    assert z < 1000 * burst;
    RoundedUp(z);
    hide Round2;
    assert Gains(cfg, 0.001, m, ms);
  }

  /** For a whole number of tokens a second, up to 100 for each token of the burst but one, and enough to fill
      the bucket in 300 s: the plain bound holds if and only if the rate is a multiple of ten. */
  lemma PlainBoundIff(r: nat, burst: nat)
    requires r <= 100 * (burst - 1) && burst <= 300 * r
    ensures PlainBound(Config(r as real, burst)) <==> r % 10 == 0
  {
    hide PlainBound;
    if r % 10 == 0 {
      TenfoldRateIsExact(r / 10, burst);
    } else {
      var cfg := Config(r as real, burst);
      forall m: nat | m < 100 ensures GainsFrom(cfg, 0.001, m) {
        WholeRateGains(r, burst, m);
      }
      GainsBreakBound(cfg, 0.001);
    }
  }
}
