/** The order in which a payout's providers are tried. */
module Router {
  import opened Registry
  import opened SuccessTracker
  import opened Weights

  datatype Algorithm = Priority | Weighted | SuccessBased

  // ---------- weighted: the chosen provider first, the others in order

  function Front<T>(s: seq<T>, idx: nat): seq<T>
    requires idx < |s|
  {
    [s[idx]] + s[..idx] + s[idx + 1..]
  }

  lemma FrontIsPermutation<T>(s: seq<T>, idx: nat)
    requires idx < |s|
    ensures multiset(Front(s, idx)) == multiset(s)
  {
    assert s == s[..idx] + [s[idx]] + s[idx + 1..];
  }

  lemma FrontAt<T>(s: seq<T>, idx: nat, k: nat)
    requires idx < |s| && k < |s|
    ensures Front(s, idx)[k] == if k == 0 then s[idx] else if k <= idx then s[k - 1] else s[k]
  {
  }

  function ConfiguredWeights(providers: seq<Entry>): (ws: seq<int>)
    ensures |ws| == |providers| && forall i :: 0 <= i < |ws| ==> ws[i] == providers[i].meta.weight
  {
    seq(|providers|, i requires 0 <= i < |providers| => providers[i].meta.weight)
  }

  function TotalWeight(providers: seq<Entry>): int {
    Sum(EffectiveWeights(ConfiguredWeights(providers)))
  }

  /** The provider that the draw selects is first, the others follow in order. */
  ghost predicate IsWeightedChoice(providers: seq<Entry>, random: int, result: seq<Entry>) {
    exists idx: nat ::
      idx < |providers| && Selects(EffectiveWeights(ConfiguredWeights(providers)), random, idx) &&
        result == Front(providers, idx)
  }

  /** Of the draws in [0, total), exactly effective-weight-many put provider i first, and each of those leaves
      one possible order. */
  lemma ChoicesFollowWeights(providers: seq<Entry>, i: nat)
    requires i < |providers|
    ensures var eff := EffectiveWeights(ConfiguredWeights(providers));
      && |set r | 0 <= r < TotalWeight(providers) && Selects(eff, r, i)| == eff[i]
      && forall r, result :: Selects(eff, r, i) && IsWeightedChoice(providers, r, result) ==>
        result == Front(providers, i)
  {
    var eff := EffectiveWeights(ConfiguredWeights(providers));
    EffectiveSumIsPositive(ConfiguredWeights(providers));
    DrawsPerProvider(eff, i);
    forall r, result | Selects(eff, r, i) && IsWeightedChoice(providers, r, result)
      ensures result == Front(providers, i)
    {
      var idx: nat :| idx < |providers| && Selects(eff, r, idx) && result == Front(providers, idx);
      SelectionIsUnique(eff, r, i, idx);
    }
  }

  lemma WeightedChoicePermutes(providers: seq<Entry>, random: int, result: seq<Entry>)
    requires IsWeightedChoice(providers, random, result)
    ensures multiset(result) == multiset(providers)
  {
    var idx: nat :| idx < |providers| && result == Front(providers, idx);
    FrontIsPermutation(providers, idx);
  }

  /** selectByWeight, for the draw `random` */
  method SelectByWeight(providers: seq<Entry>, random: int) returns (result: seq<Entry>)
    requires providers != [] && 0 <= random < TotalWeight(providers)
    ensures IsWeightedChoice(providers, random, result)
  {
    hide Selects, EffectiveWeights;
    var idx := DrawIndex(ConfiguredWeights(providers), random);
    var order := new Entry[|providers|](_ => providers[idx]);
    var j := 1;
    for i := 0 to |providers|
      invariant j == if i <= idx then i + 1 else i
      invariant order[0] == providers[idx]
      invariant forall k :: 0 <= k < i && k < idx ==> order[k + 1] == providers[k]
      invariant forall k :: idx < k < i ==> order[k] == providers[k]
    {
      if i != idx {
        order[j] := providers[i];
        j := j + 1;
      }
    }
    result := order[..];
    assert result == Front(providers, idx) by {
      forall k: nat | k < |result| ensures result[k] == Front(providers, idx)[k] {
        FrontAt(providers, idx, k);
        if 0 < k <= idx { assert order[(k - 1) + 1] == providers[k - 1]; }
      }
    }
  }

  lemma CrossMultiply(a: nat, b: nat, c: nat, d: nat)
    requires b > 0 && d > 0 && a as real / b as real >= c as real / d as real
    ensures a * d >= c * b
  {
    var (x, y) := (a as real / b as real, c as real / d as real);
    assert x * b as real == a as real && y * d as real == c as real;
    ScaleUp(x, y, b as real * d as real);
    assert a as real * d as real == x * (b as real * d as real);
    assert c as real * b as real == y * (b as real * d as real);
    assert (a * d) as real == a as real * d as real && (c * b) as real == c as real * b as real;
  }

  lemma ScaleUp(x: real, y: real, z: real)
    requires x >= y && z >= 0.0
    ensures x * z >= y * z
  {
    assert (x - y) * z >= 0.0;
  }

  // ---------- success-based: an exchange sort

  /** What the sort compares by: the tracker's counts, on this rail. */
  datatype View = View(stats: map<string, Stats>, minSamples: int, rail: string) {

    predicate Enough(e: Entry) {
      var key := Key(rail, e.meta.provider);
      key in stats && Lookup(stats, key).successes + Lookup(stats, key).failures >= minSamples
    }

    function RateOf(e: Entry): real {
      Rate(stats, rail, e.meta.provider)
    }

    /** e, now behind f, belongs before it. */
    predicate Better(e: Entry, f: Entry) {
      Enough(e) && (!Enough(f) || RateOf(e) > RateOf(f))
    }

    /** One exchange: the better of positions i and j goes to i. */
    function Exchange(s: seq<Entry>, i: nat, j: nat): (t: seq<Entry>)
      requires i < j < |s|
      ensures |t| == |s|
    {
      if Better(s[j], s[i]) then s[i := s[j]][j := s[i]] else s
    }

    // The inner loop from j, and the outer loop from i.
    function Pass(s: seq<Entry>, i: nat, j: nat): (t: seq<Entry>)
      requires i < j <= |s|
      ensures |t| == |s|
      decreases |s| - j
    {
      if j == |s| then s else Pass(Exchange(s, i, j), i, j + 1)
    }

    function Sort(s: seq<Entry>, i: nat): (t: seq<Entry>)
      requires i <= |s|
      ensures |t| == |s|
      decreases |s| - i
    {
      if i + 1 >= |s| then s else Sort(Pass(s, i, i + 1), i + 1)
    }

    // Nothing behind one of the first i positions belongs before it.
    ghost predicate OrderedTo(s: seq<Entry>, i: nat) {
      forall k, l :: 0 <= k < l < |s| && k < i ==> !Better(s[l], s[k])
    }

    ghost predicate BestSoFar(s: seq<Entry>, i: nat, j: nat)
      requires i < |s|
    {
      forall l :: i < l < j && l < |s| ==> !Better(s[l], s[i])
    }

    lemma ExchangeKeepsOrder(s: seq<Entry>, i: nat, j: nat)
      requires i < j < |s| && OrderedTo(s, i) && BestSoFar(s, i, j)
      ensures OrderedTo(Exchange(s, i, j), i) && BestSoFar(Exchange(s, i, j), i, j + 1)
    {
    }

    lemma {:induction false} PassKeepsOrder(s: seq<Entry>, i: nat, j: nat)
      requires i < j <= |s| && OrderedTo(s, i) && BestSoFar(s, i, j)
      ensures OrderedTo(Pass(s, i, j), i + 1)
      decreases |s| - j
    {
      hide Better;
      if j < |s| {
        ExchangeKeepsOrder(s, i, j);
        PassKeepsOrder(Exchange(s, i, j), i, j + 1);
      }
    }

    lemma {:induction false} SortOrders(s: seq<Entry>, i: nat)
      requires i <= |s| && OrderedTo(s, i)
      ensures OrderedTo(Sort(s, i), |s|)
      decreases |s| - i
    {
      hide Better;
      if i + 1 < |s| {
        PassKeepsOrder(s, i, i + 1);
        SortOrders(Pass(s, i, i + 1), i + 1);
      }
    }

    lemma ExchangePermutes(s: seq<Entry>, i: nat, j: nat)
      requires i < j < |s|
      ensures multiset(Exchange(s, i, j)) == multiset(s)
    {
    }

    lemma {:induction false} PassPermutes(s: seq<Entry>, i: nat, j: nat)
      requires i < j <= |s|
      ensures multiset(Pass(s, i, j)) == multiset(s)
      decreases |s| - j
    {
      if j < |s| {
        ExchangePermutes(s, i, j);
        PassPermutes(Exchange(s, i, j), i, j + 1);
      }
    }

    lemma {:induction false} SortPermutes(s: seq<Entry>, i: nat)
      requires i <= |s|
      ensures multiset(Sort(s, i)) == multiset(s)
      decreases |s| - i
    {
      if i + 1 < |s| {
        PassPermutes(s, i, i + 1);
        SortPermutes(Pass(s, i, i + 1), i + 1);
      }
    }

    /** The sort is right: a permutation in which the providers with enough samples come first, by
        non-increasing success rate. */
    lemma SortIsCorrect(s: seq<Entry>)
      ensures var t := Sort(s, 0);
        && multiset(t) == multiset(s)
        && forall k, l :: 0 <= k < l < |t| && Enough(t[l]) ==> Enough(t[k]) && RateOf(t[k]) >= RateOf(t[l])
    {
      SortPermutes(s, 0);
      SortOrders(s, 0);
      var t := Sort(s, 0);
      forall k, l | 0 <= k < l < |t| && Enough(t[l]) ensures Enough(t[k]) && RateOf(t[k]) >= RateOf(t[l]) {
        assert !Better(t[l], t[k]);
      }
    }

    // The attempts with this provider on the rail, all and accepted.
    function Attempts(history: seq<Sample>, e: Entry): nat {
      Accepted(history, e) + Count(history, Sample(rail, e.meta.provider, false))
    }

    function Accepted(history: seq<Sample>, e: Entry): nat {
      Count(history, Sample(rail, e.meta.provider, true))
    }

    lemma EnoughByCounts(history: seq<Sample>, e: Entry)
      requires stats == Recorded(history) && ColonFree(rail) && forall s :: s in history ==> ColonFree(s.rail)
      ensures Enough(e) <==> Attempts(history, e) >= 1 && Attempts(history, e) >= minSamples
      ensures Enough(e) ==> RateOf(e) == Accepted(history, e) as real / Attempts(history, e) as real
    {
      CountsAreConserved(history, rail, e.meta.provider);
      if Enough(e) { EntryRateIsRatio(history, rail, e.meta.provider); }
    }

    /** The order in terms of the history alone, on rails without a colon: providers with at least as many attempts as
        asked for, and at least one, come first, and of two of them the one before has accepted no smaller a part of
        its attempts. */
    lemma SortRanksByCounts(history: seq<Sample>, s: seq<Entry>, k: nat, l: nat)
      requires stats == Recorded(history) && ColonFree(rail) && forall x :: x in history ==> ColonFree(x.rail)
      requires k < l < |s|
      requires var e := Sort(s, 0)[l]; Attempts(history, e) >= 1 && Attempts(history, e) >= minSamples
      ensures var (d, e) := (Sort(s, 0)[k], Sort(s, 0)[l]);
        && Attempts(history, d) >= 1 && Attempts(history, d) >= minSamples
        && Accepted(history, d) * Attempts(history, e) >= Accepted(history, e) * Attempts(history, d)
    {
      hide Sort, Enough, RateOf, Attempts, Accepted;
      var (d, e) := (Sort(s, 0)[k], Sort(s, 0)[l]);
      SortIsCorrect(s);
      EnoughByCounts(history, d);
      EnoughByCounts(history, e);
      CrossMultiply(Accepted(history, d), Attempts(history, d), Accepted(history, e), Attempts(history, e));
    }

    /** It is not stable: two providers without enough samples change places when one that has them is
        behind both. */
    lemma SortIsNotStable(u1: Entry, u2: Entry, e: Entry)
      requires !Enough(u1) && !Enough(u2) && Enough(e)
      ensures Sort([u1, u2, e], 0) == [e, u2, u1]
    {
      var s := [u1, u2, e];
      assert Exchange(s, 0, 1) == s;
      var t := Exchange(s, 0, 2);
      assert t == [e, u2, u1] && Pass(t, 0, 3) == t;
      assert Pass(s, 0, 1) == Pass(s, 0, 2) == t;
      assert Exchange(t, 1, 2) == t && Pass(t, 1, 3) == t;
      assert Pass(t, 1, 2) == t && Sort(t, 2) == t;
      assert Sort(s, 0) == Sort(t, 1) == t;
    }
  }

  method SwapInPlace(a: array<Entry>, i: nat, j: nat)
    requires i < j < a.Length
    modifies a
    ensures a[..] == old(a[..])[i := old(a[j])][j := old(a[i])]
    ensures multiset(a[..]) == multiset(old(a[..]))
  {
    a[i], a[j] := a[j], a[i];
    assert a[..] == old(a[..])[i := old(a[j])][j := old(a[i])];
  }

  class Sorter {
    const tracker: Tracker
    const minSamples: int

    constructor (tracker: Tracker, minSamples: int)
      ensures this.tracker == tracker && this.minSamples == minSamples
    {
      this.tracker := tracker;
      this.minSamples := minSamples;
    }

    function CurrentView(rail: string): View
      reads tracker
    {
      View(tracker.stats, minSamples, rail)
    }

    /** One comparison: up to four reads of the tracker, each under its own lock. */
    method ShouldSwap(rail: string, ahead: Entry, behind: Entry, ghost quiet: bool) returns (swap: bool)
      requires tracker.Valid()
      modifies tracker
      ensures tracker.Valid() && old(tracker.history) <= tracker.history
      ensures quiet ==> tracker.history == old(tracker.history) && tracker.stats == old(tracker.stats)
      ensures quiet ==> swap == old(CurrentView(rail)).Better(behind, ahead)
    {
      hide Recorded;
      var succI, failI, okI := tracker.GetStats(rail, ahead.meta.provider);
      tracker.Others(quiet);
      var succJ, failJ, okJ := tracker.GetStats(rail, behind.meta.provider);
      tracker.Others(quiet);
      var enoughI := okI && succI + failI >= minSamples;
      var enoughJ := okJ && succJ + failJ >= minSamples;
      if enoughI && !enoughJ { return false; }
      if !enoughI && enoughJ { return true; }
      if enoughI && enoughJ {
        var rateI := tracker.GetSuccessRate(rail, ahead.meta.provider);
        tracker.Others(quiet);
        var rateJ := tracker.GetSuccessRate(rail, behind.meta.provider);
        return rateJ > rateI;
      }
      return false;
    }

    // The inner loop.
    method PassInPlace(rail: string, result: array<Entry>, i: nat, ghost quiet: bool)
      requires tracker.Valid() && i < result.Length
      modifies tracker, result
      ensures tracker.Valid() && old(tracker.history) <= tracker.history
      ensures quiet ==> tracker.history == old(tracker.history) && CurrentView(rail) == old(CurrentView(rail))
      ensures multiset(result[..]) == multiset(old(result[..]))
      ensures quiet ==> result[..] == old(CurrentView(rail)).Pass(old(result[..]), i, i + 1)
    {
      hide Recorded;
      ghost var view := CurrentView(rail);
      for j := i + 1 to result.Length
        invariant tracker.Valid() && old(tracker.history) <= tracker.history
        invariant quiet ==> tracker.history == old(tracker.history) && CurrentView(rail) == view
        invariant multiset(result[..]) == multiset(old(result[..]))
        invariant quiet ==> view.Pass(result[..], i, j) == view.Pass(old(result[..]), i, i + 1)
      {
        var swap := ShouldSwap(rail, result[i], result[j], quiet);
        if swap { SwapInPlace(result, i, j); }
      }
    }

    /** selectBySuccessRate. The result is a permutation whatever other payouts record meanwhile; when none
        does, it is the exchange sort. */
    method SelectBySuccessRate(rail: string, providers: seq<Entry>, ghost quiet: bool) returns (sorted: seq<Entry>)
      requires tracker.Valid()
      modifies tracker
      ensures tracker.Valid() && old(tracker.history) <= tracker.history
      ensures quiet ==> tracker.history == old(tracker.history)
      ensures multiset(sorted) == multiset(providers)
      ensures quiet ==> sorted == old(CurrentView(rail)).Sort(providers, 0)
    {
      hide Recorded;
      if providers == [] { return providers; }
      var result := new Entry[|providers|](i requires 0 <= i < |providers| => providers[i]);
      assert result[..] == providers;
      ghost var view := CurrentView(rail);
      for i := 0 to result.Length - 1
        invariant tracker.Valid() && old(tracker.history) <= tracker.history
        invariant quiet ==> tracker.history == old(tracker.history) && CurrentView(rail) == view
        invariant multiset(result[..]) == multiset(providers)
        invariant quiet ==> view.Sort(result[..], i) == view.Sort(providers, 0)
      {
        PassInPlace(rail, result, i, quiet);
      }
      sorted := result[..];
    }
  }
}
