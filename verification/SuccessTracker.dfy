/** Success and failure counts per (rail, provider), kept in one map under the key "rail:provider". */
module SuccessTracker {

  datatype Stats = Stats(successes: nat, failures: nat)

  // One provider attempt.
  datatype Sample = Sample(rail: string, provider: string, ok: bool)

  const DEFAULT_SUCCESS_RATE := 0.95

  function Key(rail: string, provider: string): string {
    rail + ":" + provider
  }

  function Lookup(stats: map<string, Stats>, key: string): Stats {
    if key in stats then stats[key] else Stats(0, 0)
  }

  function Record(stats: map<string, Stats>, s: Sample): map<string, Stats> {
    var key := Key(s.rail, s.provider);
    var was := Lookup(stats, key);
    stats[key := if s.ok then was.(successes := was.successes + 1) else was.(failures := was.failures + 1)]
  }

  /** The map after a history of attempts, oldest first. */
  function Recorded(history: seq<Sample>): map<string, Stats> {
    if history == [] then map[] else Record(Recorded(history[..|history| - 1]), history[|history| - 1])
  }

  /** How many attempts in the history were made on this rail with this provider, with this outcome. */
  function Count(history: seq<Sample>, s: Sample): nat {
    if history == [] then 0
    else Count(history[..|history| - 1], s) + if history[|history| - 1] == s then 1 else 0
  }

  function Rate(stats: map<string, Stats>, rail: string, provider: string): real {
    var s := Lookup(stats, Key(rail, provider));
    var total := s.successes + s.failures;
    if total == 0 then DEFAULT_SUCCESS_RATE else s.successes as real / total as real
  }

  predicate ColonFree(rail: string) {
    ':' !in rail
  }

  /** Rails without a colon can be read back from the key. */
  lemma KeyIsInjective(rail: string, provider: string, rail': string, provider': string)
    requires ColonFree(rail) && ColonFree(rail') && Key(rail, provider) == Key(rail', provider')
    ensures rail == rail' && provider == provider'
  {
    var key := Key(rail, provider);
    assert key[|rail|] == ':' && key[|rail'|] == ':';
    assert forall k :: 0 <= k < |rail| ==> key[k] == rail[k];
    assert forall k :: 0 <= k < |rail'| ==> key[k] == rail'[k];
    assert |rail| == |rail'|;
    assert rail == key[..|rail|] && rail' == key[..|rail'|];
    assert provider == key[|rail| + 1..] && provider' == key[|rail'| + 1..];
  }

  /** ... which takes the condition: a colon in a rail can make two pairs share an entry. */
  lemma ColonsCollide()
    ensures Key("a:b", "c") == Key("a", "b:c")
  {
    assert "a:b" + ":" + "c" == "a" + ":" + "b:c";
  }

  /** Conservation: after any history, in whatever order concurrent payouts made their attempts, the entry of
      a (rail, provider) holds exactly the numbers of its successful and failed attempts, and there is an
      entry exactly when there was an attempt. */
  lemma {:induction false} CountsAreConserved(history: seq<Sample>, rail: string, provider: string)
    requires ColonFree(rail) && forall s :: s in history ==> ColonFree(s.rail)
    ensures var ok := Count(history, Sample(rail, provider, true));
      var failed := Count(history, Sample(rail, provider, false));
      && Lookup(Recorded(history), Key(rail, provider)) == Stats(ok, failed)
      && (Key(rail, provider) in Recorded(history) <==> ok + failed >= 1)
  {
    if history != [] {
      var last := history[|history| - 1];
      CountsAreConserved(history[..|history| - 1], rail, provider);
      if Key(last.rail, last.provider) == Key(rail, provider) {
        KeyIsInjective(last.rail, last.provider, rail, provider);
      }
    }
  }

  /** So a rate that is read from an entry is a ratio of counts, never the default. */
  lemma EntryRateIsRatio(history: seq<Sample>, rail: string, provider: string)
    requires ColonFree(rail) && (forall s :: s in history ==> ColonFree(s.rail))
    requires Key(rail, provider) in Recorded(history)
    ensures var ok := Count(history, Sample(rail, provider, true));
      var failed := Count(history, Sample(rail, provider, false));
      ok + failed >= 1 && Rate(Recorded(history), rail, provider) == ok as real / (ok + failed) as real
  {
    CountsAreConserved(history, rail, provider);
  }

  /** Without an attempt the rate is the default. */
  lemma NoAttemptsRate(history: seq<Sample>, rail: string, provider: string)
    requires ColonFree(rail) && (forall s :: s in history ==> ColonFree(s.rail))
    requires forall s :: s in history ==> s.rail != rail || s.provider != provider
    ensures Rate(Recorded(history), rail, provider) == 0.95
  {
    CountsAreConserved(history, rail, provider);
    NeverCounted(history, Sample(rail, provider, true));
    NeverCounted(history, Sample(rail, provider, false));
  }

  lemma {:induction false} NeverCounted(history: seq<Sample>, s: Sample)
    requires s !in history
    ensures Count(history, s) == 0
  {
    if history != [] { NeverCounted(history[..|history| - 1], s); }
  }

  lemma OneMoreSample(history: seq<Sample>, s: Sample)
    ensures Recorded(history + [s]) == Record(Recorded(history), s)
  {
    assert (history + [s])[..|history|] == history;
  }

  class Tracker {
    var stats: map<string, Stats>
    ghost var history: seq<Sample>

    ghost predicate Valid()
      reads this
    {
      stats == Recorded(history)
    }

    constructor ()
      ensures Valid() && history == []
    {
      stats, history := map[], [];
    }

    method RecordSuccess(rail: string, provider: string)
      requires Valid()
      modifies this
      ensures Valid() && history == old(history) + [Sample(rail, provider, true)]
    {
      hide Recorded;
      var key := rail + ":" + provider;
      if key !in stats { stats := stats[key := Stats(0, 0)]; }
      stats := stats[key := stats[key].(successes := stats[key].successes + 1)];
      OneMoreSample(history, Sample(rail, provider, true));
      history := history + [Sample(rail, provider, true)];
    }

    method RecordFailure(rail: string, provider: string)
      requires Valid()
      modifies this
      ensures Valid() && history == old(history) + [Sample(rail, provider, false)]
    {
      hide Recorded;
      var key := rail + ":" + provider;
      if key !in stats { stats := stats[key := Stats(0, 0)]; }
      stats := stats[key := stats[key].(failures := stats[key].failures + 1)];
      OneMoreSample(history, Sample(rail, provider, false));
      history := history + [Sample(rail, provider, false)];
    }

    method GetSuccessRate(rail: string, provider: string) returns (rate: real)
      ensures rate == Rate(stats, rail, provider)
    {
      var key := rail + ":" + provider;
      if key !in stats { return DEFAULT_SUCCESS_RATE; }
      var total := stats[key].successes + stats[key].failures;
      if total == 0 { return DEFAULT_SUCCESS_RATE; }
      return stats[key].successes as real / total as real;
    }

    method GetStats(rail: string, provider: string) returns (successes: nat, failures: nat, ok: bool)
      ensures ok == (Key(rail, provider) in stats)
      ensures Stats(successes, failures) == Lookup(stats, Key(rail, provider))
    {
      var key := rail + ":" + provider;
      if key !in stats { return 0, 0, false; }
      return stats[key].successes, stats[key].failures, true;
    }

    // Other goroutines record while the lock is free. When `quiet`, none does.
    method Others(ghost quiet: bool)
      requires Valid()
      modifies this
      ensures Valid() && old(history) <= history
      ensures quiet ==> history == old(history)
    {
    }
  }
}
