/** Overlapping calls: the read of the hash and its write are two commands, and those of other calls can come in
    between. */
module RateLimitOverlap {
  import opened Wrappers
  import opened RateLimit

  type CallId = nat

  datatype Half = Read(call: CallId, now: int) | Write(call: CallId)

  /** What a call has read, and when. */
  datatype Snapshot = Snapshot(seen: Option<Bucket>, now: int)

  datatype Shared = Shared(b: Option<Bucket>, pending: map<CallId, Snapshot>, allowed: nat)

  function Step(cfg: Config, s: Shared, half: Half): Shared {
    match half
    case Read(c, now) => s.(pending := s.pending[c := Snapshot(Seen(s.b, now), now)])
    case Write(c) =>
      if c !in s.pending then s
      else
        var (seen, now) := (s.pending[c].seen, s.pending[c].now);
        if Allowed(cfg, seen, now)
        then Shared(Some(Consumed(cfg, seen, now)), s.pending - {c}, s.allowed + 1)
        else s.(pending := s.pending - {c})
  }

  function Steps(cfg: Config, s: Shared, halves: seq<Half>): Shared {
    if halves == [] then s else Step(cfg, Steps(cfg, s, halves[..|halves| - 1]), halves[|halves| - 1])
  }

  lemma OneMoreStep(cfg: Config, s: Shared, halves: seq<Half>, half: Half)
    ensures Steps(cfg, s, halves + [half]) == Step(cfg, Steps(cfg, s, halves), half)
  {
    assert (halves + [half])[..|halves|] == halves;
  }

  /** A call that nothing overlaps is one step of the bucket. */
  lemma CallInTurn(cfg: Config, s: Shared, c: CallId, now: int)
    requires c !in s.pending
    ensures Steps(cfg, s, [Read(c, now), Write(c)]) ==
      Shared(Next(cfg, true, s.b, now), s.pending, s.allowed + if Decision(cfg, true, s.b, now) then 1 else 0)
  {
    OneMoreStep(cfg, s, [], Read(c, now));
    OneMoreStep(cfg, s, [Read(c, now)], Write(c));
    assert [] + [Read(c, now)] + [Write(c)] == [Read(c, now), Write(c)];
    var read := Step(cfg, s, Read(c, now));
    assert read.pending - {c} == s.pending;
    hide Allowed, Consumed, Seen;
  }

  // Calls 0 to n - 1 read, and then they write.
  function Reads(n: nat, now: int): seq<Half> {
    if n == 0 then [] else Reads(n - 1, now) + [Read(n - 1, now)]
  }

  function Writes(n: nat): seq<Half> {
    if n == 0 then [] else Writes(n - 1) + [Write(n - 1)]
  }

  // The calls from k to n - 1 have read this.
  predicate Holding(s: Shared, k: nat, n: nat, read: Snapshot) {
    forall c: CallId :: k <= c < n ==> c in s.pending && s.pending[c] == read
  }

  lemma {:induction false} AllRead(cfg: Config, b: Option<Bucket>, now: int, n: nat)
    ensures var s := Steps(cfg, Shared(b, map[], 0), Reads(n, now));
      s.b == b && s.allowed == 0 && Holding(s, 0, n, Snapshot(Seen(b, now), now))
  {
    hide Seen, Steps;
    if n > 0 {
      AllRead(cfg, b, now, n - 1);
      OneMoreStep(cfg, Shared(b, map[], 0), Reads(n - 1, now), Read(n - 1, now));
    } else {
      NoSteps(cfg, Shared(b, map[], 0));
    }
  }

  lemma NoSteps(cfg: Config, s: Shared)
    ensures Steps(cfg, s, []) == s
  {
  }

  lemma {:induction false} AllWrite(cfg: Config, s: Shared, read: Snapshot, n: nat, k: nat)
    requires k <= n && Allowed(cfg, read.seen, read.now) && Holding(s, 0, n, read)
    ensures var s' := Steps(cfg, s, Writes(k));
      && s'.allowed == s.allowed + k && Holding(s', k, n, read)
      && s'.b == if k == 0 then s.b else Some(Consumed(cfg, read.seen, read.now))
  {
    hide Allowed, Consumed, Steps;
    if k > 0 {
      AllWrite(cfg, s, read, n, k - 1);
      OneMoreStep(cfg, s, Writes(k - 1), Write(k - 1));
    } else {
      NoSteps(cfg, s);
    }
  }

  lemma {:induction false} StepsConcat(cfg: Config, s: Shared, a: seq<Half>, b: seq<Half>)
    ensures Steps(cfg, s, a + b) == Steps(cfg, Steps(cfg, s, a), b)
  {
    if b == [] {
      assert a + b == a;
    } else {
      assert (a + b)[..|a + b| - 1] == a + b[..|b| - 1];
      StepsConcat(cfg, s, a, b[..|b| - 1]);
    }
  }

  /** However many calls read before the first of them writes, all of them are allowed on the one token that is
      there, and together they take one: with overlap nothing bounds the calls that are allowed at an instant. */
  lemma OverlappingCallsShareAToken(cfg: Config, b: Option<Bucket>, now: int, n: nat)
    requires Decision(cfg, true, b, now) && n > 0
    ensures var s := Steps(cfg, Shared(b, map[], 0), Reads(n, now) + Writes(n));
      && s.allowed == n && s.b == Next(cfg, true, b, now)
      && (0.995 * n as real > Burst(cfg) ==> 0.995 * s.allowed as real > Burst(cfg) + Refill(EffectiveRate(cfg), 0))
  {
    NoTimeNoRefill(EffectiveRate(cfg));
    hide Steps, Consumed, Seen, Holding;
    AllRead(cfg, b, now, n);
    StepsConcat(cfg, Shared(b, map[], 0), Reads(n, now), Writes(n));
    AllWrite(cfg, Steps(cfg, Shared(b, map[], 0), Reads(n, now)), Snapshot(Seen(b, now), now), n, n);
  }
}
