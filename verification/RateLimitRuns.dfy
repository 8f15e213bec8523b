/** What expiry, rejections and rounding do to a run of calls on one key. */
module RateLimitRuns {
  import opened Wrappers
  import opened RateLimit

  // ---------- runs

  lemma {:induction false} DecisionsConcat(cfg: Config, expires: bool, b: Option<Bucket>, s: seq<int>, t: seq<int>)
    ensures Decisions(cfg, expires, b, s + t) ==
        Decisions(cfg, expires, b, s) + Decisions(cfg, expires, Final(cfg, expires, b, s), t)
    ensures Final(cfg, expires, b, s + t) == Final(cfg, expires, Final(cfg, expires, b, s), t)
    decreases s
  {
    hide Next, Decision;
    if s == [] {
      assert s + t == t;
    } else {
      assert (s + t)[1..] == s[1..] + t;
      DecisionsConcat(cfg, expires, Next(cfg, expires, b, s[0]), s[1..], t);
    }
  }

  lemma {:induction false} CountConcat(a: seq<bool>, b: seq<bool>)
    ensures Count(a + b) == Count(a) + Count(b)
  {
    if a == [] {
      assert a + b == b;
    } else {
      assert (a + b)[1..] == a[1..] + b;
      CountConcat(a[1..], b);
    }
  }

  // ---------- rejections

  lemma RejectionWritesNothing(cfg: Config, expires: bool, b: Option<Bucket>, now: int)
    ensures !Decision(cfg, expires, b, now) ==> Next(cfg, expires, b, now) == b
  {
  }

  /** A rejected call is invisible: without it, every other call is decided as before. */
  lemma RejectionIsInvisible(cfg: Config, expires: bool, b: Option<Bucket>, times: seq<int>, i: nat)
    requires i < |times| && !Decisions(cfg, expires, b, times)[i]
    ensures var ds := Decisions(cfg, expires, b, times);
      Decisions(cfg, expires, b, times[..i] + times[i + 1..]) == ds[..i] + ds[i + 1..]
    ensures Final(cfg, expires, b, times[..i] + times[i + 1..]) == Final(cfg, expires, b, times)
  {
    hide Next, Decision;
    var (s, t) := (times[..i], times[i + 1..]);
    assert times == s + ([times[i]] + t);
    DecisionsConcat(cfg, expires, b, s, [times[i]] + t);
    DecisionsConcat(cfg, expires, b, s, t);
    var at := Final(cfg, expires, b, s);
    assert ([times[i]] + t)[1..] == t;
    var (before, after) := (Decisions(cfg, expires, b, s), Decisions(cfg, expires, at, t));
    CutOut(before, Decision(cfg, expires, at, times[i]), after);
    RejectionWritesNothing(cfg, expires, at, times[i]);
    assert Decisions(cfg, expires, at, [times[i]] + t) == [Decision(cfg, expires, at, times[i])] +
      Decisions(cfg, expires, Next(cfg, expires, at, times[i]), t);
    hide Decisions, Final;
  }

  lemma CutOut<T>(a: seq<T>, x: T, b: seq<T>)
    ensures var s := a + ([x] + b); |s| > |a| && s[|a|] == x && s[..|a|] == a && s[|a| + 1..] == b
  {
  }

  // What is left of a list when only the marked elements are kept.
  function Keeping<T>(s: seq<T>, keep: seq<bool>): seq<T>
    requires |keep| == |s|
  {
    if s == [] then [] else (if keep[0] then [s[0]] else []) + Keeping(s[1..], keep[1..])
  }

  /** Erasing any set of rejected calls at once leaves all other decisions, and the final bucket, as they were. */
  lemma {:induction false} RejectionsAreInvisible(
    cfg: Config, expires: bool, b: Option<Bucket>, times: seq<int>, keep: seq<bool>)
    requires |keep| == |times|
    requires forall i :: 0 <= i < |times| && !keep[i] ==> !Decisions(cfg, expires, b, times)[i]
    ensures Decisions(cfg, expires, b, Keeping(times, keep)) == Keeping(Decisions(cfg, expires, b, times), keep)
    ensures Final(cfg, expires, b, Keeping(times, keep)) == Final(cfg, expires, b, times)
    decreases |times|
  {
    hide Next, Decision;
    if times != [] {
      var b' := Next(cfg, expires, b, times[0]);
      var ds := Decisions(cfg, expires, b, times);
      assert ds[1..] == Decisions(cfg, expires, b', times[1..]);
      forall i | 0 <= i < |times[1..]| && !keep[1..][i] ensures !Decisions(cfg, expires, b', times[1..])[i] {
        assert ds[i + 1] == ds[1..][i];
      }
      RejectionsAreInvisible(cfg, expires, b', times[1..], keep[1..]);
      var rest := Keeping(times[1..], keep[1..]);
      if keep[0] {
        assert Keeping(times, keep) == [times[0]] + rest && ([times[0]] + rest)[1..] == rest;
      } else {
        RejectionWritesNothing(cfg, expires, b, times[0]);
        assert Keeping(times, keep) == rest;
      }
    }
  }

  // ---------- bursts at one instant

  function Repeat(t: int, n: nat): (times: seq<int>)
    ensures |times| == n && forall i :: 0 <= i < n ==> times[i] == t
  {
    seq(n, _ => t)
  }

  lemma RepeatTail(t: int, n: nat)
    requires n > 0
    ensures Repeat(t, n)[0] == t && Repeat(t, n)[1..] == Repeat(t, n - 1)
  {
  }

  function TokensAt(cfg: Config, expires: bool, b: Option<Bucket>, t: int): real {
    Available(cfg, if expires then Seen(b, t) else b, t)
  }

  // A bucket just written holds what it says.
  lemma JustWritten(cfg: Config, expires: bool, tokens: real, t: int)
    requires tokens <= Burst(cfg)
    ensures TokensAt(cfg, expires, Some(Bucket(tokens, t)), t) == tokens
  {
    NoTimeNoRefill(cfg.rate);
  }

  /** With k whole tokens, k calls at once are all allowed. */
  lemma {:induction false} Drain(cfg: Config, expires: bool, b: Option<Bucket>, t: int, k: nat, n: nat)
    requires TokensAt(cfg, expires, b, t) == k as real && n <= k <= cfg.burst
    ensures Count(Decisions(cfg, expires, b, Repeat(t, n))) == n
    ensures n > 0 ==> Final(cfg, expires, b, Repeat(t, n)) == Some(Bucket((k - n) as real, t))
    decreases n
  {
    hide Available, Round2;
    if n > 0 {
      RepeatTail(t, n);
      RoundOfInteger(k - 1);
      assert k as real - 1.0 == (k - 1) as real;
      var b' := Some(Bucket((k - 1) as real, t));
      assert Next(cfg, expires, b, t) == b';
      JustWritten(cfg, expires, (k - 1) as real, t);
      Drain(cfg, expires, b', t, k - 1, n - 1);
      assert Repeat(t, 0) == [];
    }
  }

  /** With m hundredths, no more than that many whole calls are. */
  lemma {:induction false} DrainFraction(cfg: Config, m: nat, t: int, n: nat)
    requires m as real / 100.0 <= Burst(cfg)
    ensures Count(Decisions(cfg, false, Some(Bucket(m as real / 100.0, t)), Repeat(t, n))) as real <= m as real / 100.0
    decreases n
  {
    hide Available, Round2;
    var b := Some(Bucket(m as real / 100.0, t));
    JustWritten(cfg, false, m as real / 100.0, t);
    if n > 0 {
      RepeatTail(t, n);
      if m >= 100 {
        RoundOfHundredth(m - 100);
        assert m as real / 100.0 - 1.0 == (m - 100) as real / 100.0;
        assert Next(cfg, false, b, t) == Some(Bucket((m - 100) as real / 100.0, t));
        DrainFraction(cfg, m - 100, t, n - 1);
      } else {
        assert Next(cfg, false, b, t) == b;
        DrainFraction(cfg, m, t, n - 1);
      }
    }
  }

  lemma {:induction false} Starve(cfg: Config, expires: bool, b: Option<Bucket>, t: int, n: nat)
    requires TokensAt(cfg, expires, b, t) < 1.0
    ensures Count(Decisions(cfg, expires, b, Repeat(t, n))) == 0
    decreases n
  {
    hide Available;
    if n > 0 {
      RepeatTail(t, n);
      Starve(cfg, expires, b, t, n - 1);
    }
  }

  // ---------- expiry

  /** Every run decides as if keys never expired. */
  ghost predicate ExpiryIsTransparent(cfg: Config) {
    forall times :: Ordered(times) ==> Decisions(cfg, true, None, times) == Decisions(cfg, false, None, times)
  }

  /** An empty bucket that has been idle for 300 s is full, or so nearly full that a call which takes a token
      from it rounds back to burst - 1. */
  predicate FullOnExpiry(cfg: Config) {
    var tokens := Min(Refill(cfg.rate, EXPIRY_MS), Burst(cfg));
    tokens >= 1.0 && Round2(tokens - 1.0) == Burst(cfg) - 1.0
  }

  // A bucket that has been idle for 300 s is full, or its call leaves burst - 1 all the same.
  lemma ExpiredCallIsSame(cfg: Config, b: Bucket, now: int)
    requires Sane(cfg) && cfg.burst >= 1 && FullOnExpiry(cfg) && BucketInv(cfg, Some(b), now)
    requires now - b.lastRefill >= EXPIRY_MS
    ensures var a := Available(cfg, Some(b), now); a >= 1.0 && Round2(a - 1.0) == Burst(cfg) - 1.0
  {
    RefillGrows(cfg.rate, EXPIRY_MS, now - b.lastRefill);
    hide Refill, Round2;
    var (least, a) := (Min(Refill(cfg.rate, EXPIRY_MS), Burst(cfg)), Available(cfg, Some(b), now));
    assert 1.0 <= least <= a <= Burst(cfg);
    RoundIsMonotone(least - 1.0, a - 1.0);
    RoundIsMonotone(a - 1.0, Burst(cfg) - 1.0);
    RoundOfInteger(cfg.burst - 1);
    assert (cfg.burst - 1) as real == Burst(cfg) - 1.0;
  }

  lemma ExpiredStepIsSame(cfg: Config, b: Option<Bucket>, now: int)
    requires Sane(cfg) && cfg.burst >= 1 && FullOnExpiry(cfg) && BucketInv(cfg, b, now)
    ensures Decision(cfg, true, b, now) == Decision(cfg, false, b, now)
    ensures Next(cfg, true, b, now) == Next(cfg, false, b, now)
  {
    hide FullOnExpiry, BucketInv, Round2, Refill;
    if b.Some? && now - b.value.lastRefill >= EXPIRY_MS {
      ExpiredCallIsSame(cfg, b.value, now);
      RoundOfInteger(cfg.burst - 1);
      assert (cfg.burst - 1) as real == Burst(cfg) - 1.0;
    }
  }

  lemma {:induction false} ExpiredRunIsSame(cfg: Config, b: Option<Bucket>, t0: int, times: seq<int>)
    requires Sane(cfg) && cfg.burst >= 1 && FullOnExpiry(cfg) && BucketInv(cfg, b, t0) && Ordered([t0] + times)
    ensures Decisions(cfg, true, b, times) == Decisions(cfg, false, b, times)
    decreases times
  {
    hide Next, Decision, FullOnExpiry;
    if times != [] {
      OrderedTail(t0, times);
      InvLasts(cfg, b, t0, times[0]);
      ExpiredStepIsSame(cfg, b, times[0]);
      NextKeepsInv(cfg, true, b, times[0]);
      ExpiredRunIsSame(cfg, Next(cfg, true, b, times[0]), times[0], times[1..]);
    }
  }

  lemma InvLasts(cfg: Config, b: Option<Bucket>, t: int, t': int)
    requires BucketInv(cfg, b, t) && t <= t'
    ensures BucketInv(cfg, b, t')
  {
  }

  // The run that tells the two apart: drain the bucket, wait 300 s, drain it again.
  function DrainTwice(cfg: Config): seq<int>
    requires cfg.burst >= 0
  {
    Repeat(0, cfg.burst) + Repeat(EXPIRY_MS, cfg.burst)
  }

  lemma ExpiringAllowsAll(cfg: Config)
    requires Sane(cfg) && cfg.burst >= 1
    ensures Count(Decisions(cfg, true, None, DrainTwice(cfg))) == 2 * cfg.burst
  {
    hide Decisions, Final, Round2;
    Drain(cfg, true, None, 0, cfg.burst, cfg.burst);
    var b := Final(cfg, true, None, Repeat(0, cfg.burst));
    Drain(cfg, true, b, EXPIRY_MS, cfg.burst, cfg.burst);
    DecisionsConcat(cfg, true, None, Repeat(0, cfg.burst), Repeat(EXPIRY_MS, cfg.burst));
    CountConcat(Decisions(cfg, true, None, Repeat(0, cfg.burst)), Decisions(cfg, true, b, Repeat(EXPIRY_MS,
      cfg.burst)));
  }

  // The second drain, when the bucket has not quite refilled.
  lemma SecondDrainFallsShort(cfg: Config)
    requires Sane(cfg) && cfg.burst >= 1 && !FullOnExpiry(cfg)
    ensures Count(Decisions(cfg, false, Some(Bucket(0.0, 0)), Repeat(EXPIRY_MS, cfg.burst))) < cfg.burst
  {
    hide Refill, Round2;
    var b := Some(Bucket(0.0, 0));
    var tokens := TokensAt(cfg, false, b, EXPIRY_MS);
    if tokens < 1.0 {
      Starve(cfg, false, b, EXPIRY_MS, cfg.burst);
    } else {
      RepeatTail(EXPIRY_MS, cfg.burst);
      var m := RoundIsHundredth(tokens - 1.0);
      RoundIsMonotone(tokens - 1.0, Burst(cfg) - 1.0);
      RoundOfInteger(cfg.burst - 1);
      RoundBounds(tokens - 1.0);
      assert (cfg.burst - 1) as real == Burst(cfg) - 1.0;
      assert 0.0 <= m as real / 100.0 < Burst(cfg) - 1.0;
      assert Next(cfg, false, b, EXPIRY_MS) == Some(Bucket(m as real / 100.0, EXPIRY_MS));
      DrainFraction(cfg, m, EXPIRY_MS, cfg.burst - 1);
    }
  }

  lemma IdealAllowsFewer(cfg: Config)
    requires Sane(cfg) && cfg.burst >= 1 && !FullOnExpiry(cfg)
    ensures Count(Decisions(cfg, false, None, DrainTwice(cfg))) < 2 * cfg.burst
  {
    hide Decisions, Final, Round2, FullOnExpiry;
    Drain(cfg, false, None, 0, cfg.burst, cfg.burst);
    var b := Final(cfg, false, None, Repeat(0, cfg.burst));
    SecondDrainFallsShort(cfg);
    DecisionsConcat(cfg, false, None, Repeat(0, cfg.burst), Repeat(EXPIRY_MS, cfg.burst));
    CountConcat(Decisions(cfg, false, None, Repeat(0, cfg.burst)), Decisions(cfg, false, b, Repeat(EXPIRY_MS,
      cfg.burst)));
  }

  /** The 300 s key expiry changes no decision in any run exactly when 300 s refill an empty bucket, up to the
      rounding of the first token taken. */
  lemma ExpiryIsTransparentIff(cfg: Config)
    requires Sane(cfg) && cfg.burst >= 1
    ensures ExpiryIsTransparent(cfg) <==> FullOnExpiry(cfg)
  {
    hide FullOnExpiry, Decisions;
    if FullOnExpiry(cfg) {
      forall times | Ordered(times) ensures Decisions(cfg, true, None, times) == Decisions(cfg, false, None, times) {
        if times != [] {
          assert [times[0]] + times[1..] == times;
          FirstCallRepeated(times);
          ExpiredRunIsSame(cfg, None, times[0], times);
        } else {
          NoDecisions(cfg);
        }
      }
    } else {
      ExpiringAllowsAll(cfg);
      IdealAllowsFewer(cfg);
      assert Ordered(DrainTwice(cfg));
    }
  }

  lemma NoDecisions(cfg: Config)
    ensures Decisions(cfg, true, None, []) == Decisions(cfg, false, None, [])
  {
  }

  lemma FirstCallRepeated(times: seq<int>)
    requires Ordered(times) && times != []
    ensures Ordered([times[0]] + times)
  {
    var twice := [times[0]] + times;
    forall i, j | 0 <= i < j < |twice| ensures twice[i] <= twice[j] {
      assert i > 0 ==> times[i - 1] <= times[j - 1];
      assert i == 0 && j > 1 ==> times[0] <= times[j - 1];
    }
  }

  /** In particular 300 * rate >= burst suffices. */
  lemma FastRefillIsTransparent(cfg: Config)
    requires cfg.burst >= 1 && 300.0 * cfg.rate >= Burst(cfg)
    ensures FullOnExpiry(cfg)
  {
    assert Refill(cfg.rate, EXPIRY_MS) == 300.0 * cfg.rate;
    RoundOfInteger(cfg.burst - 1);
    assert (cfg.burst - 1) as real == Burst(cfg) - 1.0;
  }

  /** ... and it is not necessary: 1.996 tokens in 300 s are short of a burst of 2, but the shortfall is
      rounded away. */
  lemma SlightlySlowRefillIsTransparent()
    ensures var cfg := Config(1.996 / 300.0, 2); 300.0 * cfg.rate < Burst(cfg) && FullOnExpiry(cfg)
  {
    var cfg := Config(1.996 / 300.0, 2);
    assert Refill(cfg.rate, EXPIRY_MS) == 1.996;
    assert (99.6 as real).Floor == 99;
  }

  // ---------- Retry-After: 1

  /** A call one second after a rejection, with none in between, is allowed. */
  ghost predicate RetryAfterOneSecondWorks(cfg: Config) {
    forall times, now :: Ordered(times + [now]) && !Decision(cfg, true, Final(cfg, true, None, times), now) ==>
      Decision(cfg, true, Final(cfg, true, None, times + [now]), now + 1000)
  }

  lemma RetrySucceeds(cfg: Config, b: Option<Bucket>, now: int)
    requires Sane(cfg) && cfg.rate >= 1.0 && cfg.burst >= 1 && BucketInv(cfg, b, now)
    ensures Decision(cfg, true, b, now + 1000)
  {
    if b.Some? {
      var ms := now + 1000 - b.value.lastRefill;
      RefillGrows(cfg.rate, 1000, ms);
      assert Refill(cfg.rate, 1000) == cfg.rate;
    }
  }

  lemma OneMore(cfg: Config, times: seq<int>, now: int)
    ensures Final(cfg, true, None, times + [now]) == Next(cfg, true, Final(cfg, true, None, times), now)
  {
    hide Next;
    DecisionsConcat(cfg, true, None, times, [now]);
    assert [now][1..] == [];
  }

  lemma FinalInv(cfg: Config, times: seq<int>, now: int)
    requires Sane(cfg) && Ordered(times + [now])
    ensures BucketInv(cfg, Final(cfg, true, None, times), now)
  {
    hide Final, BucketInv;
    var all := times + [now];
    if times == [] {
      NothingYet(cfg, now);
    } else {
      forall i, j | 0 <= i < j < |times| ensures times[i] <= times[j] {
        assert all[i] <= all[j];
      }
      FirstCallRepeated(times);
      NothingYet(cfg, times[0]);
      FinalKeepsInv(cfg, true, None, times[0], times);
      assert all[|times| - 1] <= all[|times|];
      InvLasts(cfg, Final(cfg, true, None, times), times[|times| - 1], now);
    }
  }

  lemma NothingYet(cfg: Config, t: int)
    ensures BucketInv(cfg, None, t) && Final(cfg, true, None, []) == None
  {
  }

  /** The header keeps its promise exactly when the bucket refills at least one token a second and holds one. */
  lemma RetryAfterIff(cfg: Config)
    requires Sane(cfg)
    ensures RetryAfterOneSecondWorks(cfg) <==> cfg.rate >= 1.0 && cfg.burst >= 1
  {
    if cfg.rate >= 1.0 && cfg.burst >= 1 {
      forall times, now | Ordered(times + [now]) && !Decision(cfg, true, Final(cfg, true, None, times), now)
        ensures Decision(cfg, true, Final(cfg, true, None, times + [now]), now + 1000)
      {
        OneMore(cfg, times, now);
        FinalInv(cfg, times, now);
        RetrySucceeds(cfg, Final(cfg, true, None, times), now);
      }
    } else {
      RetryFails(cfg);
    }
  }

  // The run against a slow or an empty bucket: drain it, be rejected, come back a second later.
  lemma RetryFails(cfg: Config)
    requires Sane(cfg) && (cfg.rate < 1.0 || cfg.burst < 1)
    ensures !RetryAfterOneSecondWorks(cfg)
  {
    var times := Repeat(0, cfg.burst);
    var b := Final(cfg, true, None, times);
    Drain(cfg, true, None, 0, cfg.burst, cfg.burst);
    OneMore(cfg, times, 0);
    assert Ordered(times + [0]);
    if cfg.burst >= 1 {
      JustWritten(cfg, true, 0.0, 0);
      assert Refill(cfg.rate, 1000) == cfg.rate;
    }
    assert !Decision(cfg, true, b, 0) && !Decision(cfg, true, Final(cfg, true, None, times + [0]), 1000);
  }

  // ---------- what rounding costs

  // Calls every 996 ms.
  function Steady(k: nat, n: nat): (times: seq<int>)
    ensures |times| == n
  {
    seq(n, i => 996 * (k + i))
  }

  /** At one token a second, calls every 996 ms are all allowed for ever: each finds 1.996 tokens, and the
      0.996 it leaves is stored as 1.00. */
  lemma {:induction false} SteadyIsAllowed(k: nat, n: nat)
    ensures Count(Decisions(Config(1.0, 2), true, Some(Bucket(1.0, 996 * k - 996)), Steady(k, n))) == n
    decreases n
  {
    hide Next, Decision;
    if n > 0 {
      SteadyTail(k, n);
      hide Steady;
      SteadyStep(k);
      SteadyIsAllowed(k + 1, n - 1);
    }
  }

  lemma SteadyTail(k: nat, n: nat)
    requires n > 0
    ensures Steady(k, n)[0] == 996 * k && Steady(k, n)[1..] == Steady(k + 1, n - 1)
  {
  }

  lemma SteadyStep(k: nat)
    ensures var (cfg, b) := (Config(1.0, 2), Some(Bucket(1.0, 996 * k - 996)));
      Decision(cfg, true, b, 996 * k) && Next(cfg, true, b, 996 * k) == Some(Bucket(1.0, 996 * (k + 1) - 996))
  {
    var (cfg, b) := (Config(1.0, 2), Some(Bucket(1.0, 996 * k - 996)));
    assert Available(cfg, b, 996 * k) == 1.996;
    assert (99.6 as real).Floor == 99;
  }

  lemma SteadyFromFull(n: nat)
    ensures Count(Decisions(Config(1.0, 2), true, None, [0] + Steady(1, n))) == 1 + n
  {
    var cfg := Config(1.0, 2);
    assert ([0] + Steady(1, n))[1..] == Steady(1, n);
    RoundOfInteger(1);
    assert Next(cfg, true, None, 0) == Some(Bucket(1.0, 0));
    SteadyIsAllowed(1, n);
  }

  /** So the bound without the 0.995 is false: in this run of 300 calls more are allowed than
      burst + rate * time. */
  lemma PlainBoundFails()
    ensures exists times, t1 ::
      Ordered([0] + times + [t1]) && Count(Decisions(Config(1.0, 2), true, None, [0] + times)) as real >
        2.0 + Refill(1.0, t1 - 0)
  {
    hide Decisions, Count;
    var times := Steady(1, 299);
    SteadyFromFull(299);
    assert Ordered([0] + times + [299 * 996]);
    assert Refill(1.0, 299 * 996 - 0) == 297.804;
  }
}
