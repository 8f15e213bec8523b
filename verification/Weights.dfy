/** Effective weights, and the weighted draw on them. */
module Weights {

  function Sum(ws: seq<int>): int {
    if ws == [] then 0 else Sum(ws[..|ws| - 1]) + ws[|ws| - 1]
  }

  // Total and number of the explicit, that is positive, weights.
  function ExplicitSum(ws: seq<int>): nat {
    if ws == [] then 0
    else ExplicitSum(ws[..|ws| - 1]) + if ws[|ws| - 1] > 0 then ws[|ws| - 1] else 0
  }

  function ExplicitCount(ws: seq<int>): (n: nat)
    ensures n <= |ws|
  {
    if ws == [] then 0 else ExplicitCount(ws[..|ws| - 1]) + if ws[|ws| - 1] > 0 then 1 else 0
  }

  lemma {:induction false} CountBounds(ws: seq<int>)
    ensures ExplicitCount(ws) <= ExplicitSum(ws)
    ensures ExplicitCount(ws) == 0 ==> ExplicitSum(ws) == 0
    ensures ExplicitCount(ws) == |ws| <==> forall i :: 0 <= i < |ws| ==> ws[i] > 0
    ensures ExplicitCount(ws) == 0 <==> forall i :: 0 <= i < |ws| ==> ws[i] <= 0
  {
    if ws != [] {
      var init := ws[..|ws| - 1];
      CountBounds(init);
      assert forall i :: 0 <= i < |init| ==> init[i] == ws[i];
    }
  }

  // z shares of q each, the first of them r larger.
  function Shares(z: nat, q: int, r: int): int {
    if z == 0 then 0 else if z == 1 then q + r else Shares(z - 1, q, r) + q
  }

  lemma {:induction false} SharesAreProduct(z: nat, q: int, r: int)
    ensures Shares(z, q, r) == if z == 0 then 0 else z * q + r
  {
    if z > 1 { SharesAreProduct(z - 1, q, r); }
  }

  // Go's / and % on operands that are never negative here.
  function Quotient(a: int, b: int): int
    requires b > 0
  {
    a / b
  }

  function Remainder(a: int, b: int): int
    requires b > 0
  {
    a % b
  }

  lemma Division(a: int, b: int)
    requires a >= 0 && b > 0
    ensures var (q, r) := (Quotient(a, b), Remainder(a, b));
      && q >= 0 && 0 <= r < b && Shares(b, q, r) == a
      && (q == 0 <==> a < b) && (q == 0 ==> r == a)
  {
    hide Shares;
    SharesAreProduct(b, a / b, a % b);
    SmallQuotient(a, b);
  }

  lemma SmallQuotient(a: int, b: int)
    requires a >= 0 && b > 0
    ensures a == a / b * b + a % b && (a / b == 0 <==> a < b)
  {
    var q := a / b;
    assert a == b * q + a % b;
    if q > 0 { assert b * (q - 1) >= 0; }
  }

  predicate IsFirstUnset(ws: seq<int>, i: nat)
    requires i < |ws|
  {
    ws[i] == 0 && forall j :: 0 <= j < i ==> ws[j] != 0
  }

  /** The effective weight of provider i, given the configured ones; 0 means unset. */
  function EffectiveWeight(ws: seq<int>, i: nat): int
    requires i < |ws|
  {
    var (n, unset, remainder) := (|ws|, |ws| - ExplicitCount(ws), 100 - ExplicitSum(ws));
    if unset == n then Quotient(100, n) + if i == 0 then Remainder(100, n) else 0
    else if unset == 0 || ws[i] != 0 then (if ws[i] > 0 then ws[i] else 0)
    else if remainder <= 0 then 1
    else Quotient(remainder, unset) + if IsFirstUnset(ws, i) then Remainder(remainder, unset) else 0
  }

  function EffectiveWeights(ws: seq<int>): (eff: seq<int>)
    ensures |eff| == |ws|
  {
    seq(|ws|, i requires 0 <= i < |ws| => EffectiveWeight(ws, i))
  }

  predicate NonNegative(ws: seq<int>) {
    forall i :: 0 <= i < |ws| ==> ws[i] >= 0
  }

  // ---------- the sum

  // Explicit weights stay; each unset provider gets q, and the first of them r more.
  ghost predicate SharesOut(ws: seq<int>, eff: seq<int>, q: int, r: int) {
    && |eff| == |ws|
    && forall i :: 0 <= i < |ws| ==>
         eff[i] == if ws[i] > 0 then ws[i] else q + if IsFirstUnset(ws, i) then r else 0
  }

  lemma FirstUnsetByCount(ws: seq<int>, i: nat)
    requires NonNegative(ws) && i < |ws| && ws[i] == 0
    ensures IsFirstUnset(ws, i) <==> ExplicitCount(ws[..i]) == i
  {
    CountBounds(ws[..i]);
    assert forall j :: 0 <= j < i ==> ws[..i][j] == ws[j];
  }

  lemma {:induction false} SharesAddUp(ws: seq<int>, eff: seq<int>, k: nat, q: int, r: int)
    requires NonNegative(ws) && k <= |ws| && SharesOut(ws, eff, q, r)
    ensures Sum(eff[..k]) == ExplicitSum(ws[..k]) + Shares(k - ExplicitCount(ws[..k]), q, r)
  {
    hide IsFirstUnset;
    if k > 0 {
      SharesAddUp(ws, eff, k - 1, q, r);
      assert eff[..k][..k - 1] == eff[..k - 1] && ws[..k][..k - 1] == ws[..k - 1];
      if ws[k - 1] == 0 {
        FirstUnsetByCount(ws, k - 1);
      }
    }
  }

  // What each unset provider gets, and what the first of them gets on top.
  function UnsetShare(unset: nat, remainder: int): (int, int)
    requires unset > 0
  {
    if remainder <= 0 then (1, 0) else (Quotient(remainder, unset), Remainder(remainder, unset))
  }

  lemma SharesOfRemainder(unset: nat, remainder: int)
    requires unset > 0
    ensures Shares(unset, UnsetShare(unset, remainder).0, UnsetShare(unset, remainder).1) ==
        if remainder > 0 then remainder else unset
  {
    SharesAreProduct(unset, 1, 0);
    if remainder > 0 { Division(remainder, unset); }
  }

  lemma EqualShare(ws: seq<int>, i: nat)
    requires NonNegative(ws) && ExplicitCount(ws) < |ws| && i < |ws|
    ensures var (q, r) := UnsetShare(|ws| - ExplicitCount(ws), 100 - ExplicitSum(ws));
      EffectiveWeight(ws, i) == if ws[i] > 0 then ws[i] else q + if IsFirstUnset(ws, i) then r else 0
  {
    hide Quotient, Remainder, ExplicitCount, ExplicitSum;
    CountBounds(ws);
    if ws[i] == 0 && ws[0] == 0 {
      assert IsFirstUnset(ws, i) <==> i == 0;
    }
  }

  lemma AllExplicit(ws: seq<int>)
    requires ExplicitCount(ws) == |ws|
    ensures SharesOut(ws, EffectiveWeights(ws), 0, 0)
  {
    CountBounds(ws);
  }

  lemma SomeUnset(ws: seq<int>)
    requires NonNegative(ws) && ExplicitCount(ws) < |ws|
    ensures var (q, r) := UnsetShare(|ws| - ExplicitCount(ws), 100 - ExplicitSum(ws));
      SharesOut(ws, EffectiveWeights(ws), q, r)
  {
    hide UnsetShare, EffectiveWeight, ExplicitCount, ExplicitSum, IsFirstUnset;
    var (q, r) := UnsetShare(|ws| - ExplicitCount(ws), 100 - ExplicitSum(ws));
    forall i | 0 <= i < |ws|
      ensures EffectiveWeight(ws, i) == if ws[i] > 0 then ws[i] else q + if IsFirstUnset(ws, i) then r else 0
    {
      EqualShare(ws, i);
    }
  }

  /** With non-negative configured weights the effective weights add up to 100 when there is a share to hand
      out, and otherwise to the explicit total plus one for each unset provider. */
  lemma EffectiveSum(ws: seq<int>)
    requires NonNegative(ws)
    ensures var unset := |ws| - ExplicitCount(ws);
      Sum(EffectiveWeights(ws)) == if unset > 0 && ExplicitSum(ws) < 100 then 100 else ExplicitSum(ws) + unset
  {
    hide UnsetShare, EffectiveWeight, SharesOut, ExplicitCount, ExplicitSum, Sum, Shares;
    var (n, unset, remainder, eff) := (|ws|, |ws| - ExplicitCount(ws), 100 - ExplicitSum(ws), EffectiveWeights(ws));
    assert eff[..n] == eff && ws[..n] == ws;
    if unset == 0 {
      AllExplicit(ws);
      SharesAddUp(ws, eff, n, 0, 0);
      SharesAreProduct(0, 0, 0);
    } else {
      SomeUnset(ws);
      SharesAddUp(ws, eff, n, UnsetShare(unset, remainder).0, UnsetShare(unset, remainder).1);
      SharesOfRemainder(unset, remainder);
    }
  }

  /** How unset providers share, for non-negative weights: all but the first of them get the same; the first gets what
      does not divide on top, which is less than a point for each of them; and where nothing is left of 100 each gets
      exactly one. */
  lemma UnsetShareEvenly(ws: seq<int>, i: nat, j: nat)
    requires NonNegative(ws) && i < |ws| && j < |ws| && ws[i] == 0 && ws[j] == 0 && j != i
    requires forall k :: 0 <= k < i ==> ws[k] != 0
    ensures var more := EffectiveWeight(ws, i) - EffectiveWeight(ws, j); 0 <= more < |ws| - ExplicitCount(ws)
    ensures forall k :: 0 <= k < |ws| && k != i && ws[k] == 0 ==> EffectiveWeight(ws, k) == EffectiveWeight(ws, j)
    ensures ExplicitSum(ws) >= 100 ==> EffectiveWeight(ws, i) == EffectiveWeight(ws, j) == 1
  {
    hide EffectiveWeight, ExplicitCount, ExplicitSum, Quotient, Remainder, IsFirstUnset;
    CountBounds(ws);
    var (unset, remainder) := (|ws| - ExplicitCount(ws), 100 - ExplicitSum(ws));
    var q := UnsetShare(unset, remainder);
    FirstUnsetIs(ws, i);
    forall k | 0 <= k < |ws| && ws[k] == 0 ensures EffectiveWeight(ws, k) == q.0 + if k == i then q.1 else 0 {
      EqualShare(ws, k);
    }
    if remainder > 0 { Division(remainder, unset); }
    TwoAreUnset(ws, i, j);
  }

  lemma FirstUnsetIs(ws: seq<int>, i: nat)
    requires i < |ws| && ws[i] == 0 && forall k :: 0 <= k < i ==> ws[k] != 0
    ensures forall k :: 0 <= k < |ws| && ws[k] == 0 ==> (IsFirstUnset(ws, k) <==> k == i)
  {
  }

  lemma TwoAreUnset(ws: seq<int>, i: nat, j: nat)
    requires i < |ws| && j < |ws| && i != j && ws[i] == 0 && ws[j] == 0
    ensures |ws| - ExplicitCount(ws) > 0
  {
    CountBounds(ws);
  }

  /** Where no weight is positive, all providers share 100 equally, negative weights or not, and the first gets what
      does not divide. */
  lemma NoneExplicit(ws: seq<int>, i: nat)
    requires i < |ws| && forall k :: 0 <= k < |ws| ==> ws[k] <= 0
    ensures EffectiveWeight(ws, i) == 100 / |ws| + if i == 0 then 100 % |ws| else 0
  {
    CountBounds(ws);
    hide ExplicitSum;
  }

  /** A negative weight beside an explicit one gets nothing. */
  lemma NegativeGetsNothing(ws: seq<int>, i: nat, j: nat)
    requires i < |ws| && j < |ws| && ws[i] < 0 && ws[j] > 0
    ensures EffectiveWeight(ws, i) == 0
  {
    CountBounds(ws);
    hide ExplicitSum, Quotient, Remainder;
  }

  /** Explicit weights are kept, and an unset provider is starved exactly when there are more unset providers
      than points to share and it is not the first of them. */
  lemma WhoGetsNothing(ws: seq<int>, i: nat)
    requires NonNegative(ws) && i < |ws|
    ensures ws[i] > 0 ==> EffectiveWeight(ws, i) == ws[i]
    ensures var unset := |ws| - ExplicitCount(ws);
      EffectiveWeight(ws, i) == 0 <==>
        ws[i] == 0 && !IsFirstUnset(ws, i) && ExplicitSum(ws) < 100 < ExplicitSum(ws) + unset
  {
    hide Quotient, Remainder, Shares, ExplicitCount, ExplicitSum, Sum;
    CountBounds(ws);
    var (unset, remainder) := (|ws| - ExplicitCount(ws), 100 - ExplicitSum(ws));
    if ws[i] == 0 && remainder > 0 {
      Division(remainder, unset);
      assert ws[0] == 0 ==> (IsFirstUnset(ws, i) <==> i == 0);
    }
  }

  lemma WeightBounds(ws: seq<int>, i: nat)
    requires i < |ws|
    ensures EffectiveWeight(ws, i) >= 0
    ensures ws[i] > 0 || (ExplicitCount(ws) == 0 && i == 0) ==> EffectiveWeight(ws, i) > 0
  {
    hide Quotient, Remainder, Shares, ExplicitCount, ExplicitSum, Sum;
    CountBounds(ws);
    var (unset, remainder) := (|ws| - ExplicitCount(ws), 100 - ExplicitSum(ws));
    Division(100, |ws|);
    if unset > 0 && remainder > 0 { Division(remainder, unset); }
  }

  lemma {:induction false} SumIsPositive(ws: seq<int>, i: nat)
    requires NonNegative(ws) && i < |ws| && ws[i] > 0
    ensures Sum(ws) > 0
  {
    var init := ws[..|ws| - 1];
    if i < |init| { SumIsPositive(init, i); } else { SumIsNonNegative(init); }
  }

  lemma {:induction false} SumIsNonNegative(ws: seq<int>)
    requires NonNegative(ws)
    ensures Sum(ws) >= 0
  {
    if ws != [] { SumIsNonNegative(ws[..|ws| - 1]); }
  }

  /** Whatever is configured, the draw is over a positive total of non-negative weights. */
  lemma EffectiveSumIsPositive(ws: seq<int>)
    requires ws != []
    ensures Sum(EffectiveWeights(ws)) > 0 && NonNegative(EffectiveWeights(ws))
  {
    hide Sum, EffectiveWeight;
    CountBounds(ws);
    forall i | 0 <= i < |ws| ensures EffectiveWeight(ws, i) >= 0 { WeightBounds(ws, i); }
    var i: nat := 0;
    if ExplicitCount(ws) > 0 { i :| i < |ws| && ws[i] > 0; }
    WeightBounds(ws, i);
    SumIsPositive(EffectiveWeights(ws), i);
  }

  lemma Pointwise(ws: seq<int>, weights: seq<int>)
    requires |weights| == |ws| && forall i :: 0 <= i < |ws| ==> weights[i] == EffectiveWeight(ws, i)
    ensures weights == EffectiveWeights(ws)
  {
  }

  /** calculateEffectiveWeights */
  method CalculateEffectiveWeights(ws: seq<int>) returns (weights: array<int>)
    requires ws != []
    ensures fresh(weights) && weights[..] == EffectiveWeights(ws)
  {
    hide Quotient, Remainder, EffectiveWeights;
    var n := |ws|;
    weights := new int[n](_ => 0);
    var totalExplicit, explicitCount := CollectExplicit(ws, weights);
    CountBounds(ws);
    if explicitCount == 0 {
      EqualWeights(weights, n);
    } else if explicitCount < n {
      ShareRemainder(ws, weights, 100 - totalExplicit, n - explicitCount);
    }
    Pointwise(ws, weights[..]);
  }

  method CollectExplicit(ws: seq<int>, weights: array<int>) returns (totalExplicit: int, explicitCount: int)
    requires weights.Length == |ws| && forall j :: 0 <= j < |ws| ==> weights[j] == 0
    modifies weights
    ensures totalExplicit == ExplicitSum(ws) && explicitCount == ExplicitCount(ws)
    ensures forall j :: 0 <= j < |ws| ==> weights[j] == if ws[j] > 0 then ws[j] else 0
  {
    totalExplicit, explicitCount := 0, 0;
    for i := 0 to |ws|
      invariant totalExplicit == ExplicitSum(ws[..i]) && explicitCount == ExplicitCount(ws[..i])
      invariant forall j :: 0 <= j < |ws| ==> weights[j] == if j < i && ws[j] > 0 then ws[j] else 0
    {
      assert ws[..i + 1][..i] == ws[..i];
      if ws[i] > 0 {
        weights[i] := ws[i];
        totalExplicit := totalExplicit + ws[i];
        explicitCount := explicitCount + 1;
      }
    }
    assert ws[..|ws|] == ws;
  }

  // Some weights are explicit and some are not: the unset ones share what is left of 100, or get 1 each.
  method ShareRemainder(ws: seq<int>, weights: array<int>, remainder: int, unsetCount: int)
    requires weights.Length == |ws| && unsetCount > 0
    modifies weights
    ensures var (q, r) := UnsetShare(unsetCount, remainder);
      forall j :: 0 <= j < |ws| ==>
        weights[j] == if ws[j] != 0 then old(weights[j]) else q + if IsFirstUnset(ws, j) then r else 0
  {
    hide Quotient, Remainder;
    if remainder <= 0 {
      FillUnset(ws, weights, 1);
    } else {
      Division(remainder, unsetCount);
      FillUnset(ws, weights, Quotient(remainder, unsetCount));
      TopUpFirstUnset(ws, weights, Remainder(remainder, unsetCount));
    }
  }

  // No weight is explicit: 100 shared equally, the rest to the first.
  method EqualWeights(weights: array<int>, n: nat)
    requires n == weights.Length > 0
    modifies weights
    ensures forall j :: 0 <= j < n ==> weights[j] == Quotient(100, n) + if j == 0 then Remainder(100, n) else 0
  {
    hide Quotient, Remainder;
    for i := 0 to n
      invariant forall j :: 0 <= j < i ==> weights[j] == Quotient(100, n)
    {
      weights[i] := Quotient(100, n);
    }
    weights[0] := weights[0] + Remainder(100, n);
  }

  method FillUnset(ws: seq<int>, weights: array<int>, share: int)
    requires weights.Length == |ws|
    modifies weights
    ensures forall j :: 0 <= j < |ws| ==> weights[j] == if ws[j] == 0 then share else old(weights[j])
  {
    for i := 0 to |ws|
      invariant forall j :: 0 <= j < |ws| ==> weights[j] == if j < i && ws[j] == 0 then share else old(weights[j])
    {
      if ws[i] == 0 { weights[i] := share; }
    }
  }

  method TopUpFirstUnset(ws: seq<int>, weights: array<int>, left: int)
    requires weights.Length == |ws|
    modifies weights
    ensures forall j :: 0 <= j < |ws| ==>
        weights[j] == old(weights[j]) + if left > 0 && IsFirstUnset(ws, j) then left else 0
  {
    if left > 0 {
      for i := 0 to |ws|
        invariant forall j :: 0 <= j < i ==> ws[j] != 0
        invariant forall j :: 0 <= j < |ws| ==> weights[j] == old(weights[j])
      {
        if ws[i] == 0 {
          weights[i] := weights[i] + left;
          return;
        }
      }
    }
  }

  // ---------- the draw

  // The running total after k providers.
  function Prefix(ws: seq<int>, k: nat): int
    requires k <= |ws|
  {
    Sum(ws[..k])
  }

  lemma NextPrefix(ws: seq<int>, k: nat)
    requires k < |ws|
    ensures Prefix(ws, k + 1) == Prefix(ws, k) + ws[k]
    ensures Prefix(ws, 0) == 0 && Prefix(ws, |ws|) == Sum(ws)
  {
    assert ws[..k + 1][..k] == ws[..k] && ws[..|ws|] == ws;
  }

  /** The draws that select provider i: those between the running totals before and after it. */
  predicate Selects(ws: seq<int>, r: int, i: nat)
    requires i < |ws|
  {
    Prefix(ws, i) <= r < Prefix(ws, i + 1)
  }

  lemma {:induction false} PrefixIsMonotone(ws: seq<int>, i: nat, j: nat)
    requires NonNegative(ws) && i <= j <= |ws|
    ensures Prefix(ws, i) <= Prefix(ws, j)
  {
    if i < j {
      PrefixIsMonotone(ws, i, j - 1);
      NextPrefix(ws, j - 1);
    }
  }

  /** A draw selects one provider only. */
  lemma SelectionIsUnique(ws: seq<int>, r: int, i: nat, j: nat)
    requires NonNegative(ws) && i < |ws| && j < |ws| && Selects(ws, r, i) && Selects(ws, r, j)
    ensures i == j
  {
    if i < j { PrefixIsMonotone(ws, i + 1, j); }
    if j < i { PrefixIsMonotone(ws, j + 1, i); }
  }

  /** weightedRandomIndex, with the random number as a parameter: rand.Intn(total) or, when the total is not
      positive, rand.Intn(len(weights)). */
  method WeightedRandomIndex(weights: seq<int>, totalWeight: int, random: int) returns (idx: nat)
    requires weights != []
    requires 0 <= random < if totalWeight <= 0 then |weights| else totalWeight
    ensures idx < |weights|
    ensures totalWeight <= 0 ==> idx == random
    ensures totalWeight > 0 ==>
      && (forall k :: 1 <= k <= idx ==> Prefix(weights, k) <= random)
      && (random < Prefix(weights, idx + 1) || (idx == |weights| - 1 && Sum(weights) <= random))
  {
    hide Prefix;
    if totalWeight <= 0 { return random; }
    var sum := 0;
    NextPrefix(weights, 0);
    for i := 0 to |weights|
      invariant sum == Prefix(weights, i)
      invariant forall k :: 1 <= k <= i ==> Prefix(weights, k) <= random
    {
      NextPrefix(weights, i);
      sum := sum + weights[i];
      if random < sum { return i; }
    }
    return |weights| - 1;
  }

  method TotalOf(weights: seq<int>) returns (total: int)
    requires weights != []
    ensures total == Sum(weights)
  {
    hide Prefix;
    total := 0;
    NextPrefix(weights, 0);
    for i := 0 to |weights|
      invariant total == Prefix(weights, i)
    {
      NextPrefix(weights, i);
      total := total + weights[i];
    }
  }

  /** The index that selectByWeight chooses: the draw is over a positive total, and always ends inside the
      loop. */
  method DrawIndex(ws: seq<int>, random: int) returns (idx: nat)
    requires ws != [] && 0 <= random < Sum(EffectiveWeights(ws))
    ensures idx < |ws| && Selects(EffectiveWeights(ws), random, idx)
  {
    hide Prefix, Sum, EffectiveWeight;
    var weights := CalculateEffectiveWeights(ws);
    var totalWeight := TotalOf(weights[..]);
    idx := WeightedRandomIndex(weights[..], totalWeight, random);
    NextPrefix(weights[..], 0);
  }

  // ---------- how often each provider is drawn

  function Interval(lo: int, hi: int): (s: set<int>)
    requires lo <= hi
    ensures |s| == hi - lo && forall r :: r in s <==> lo <= r < hi
    decreases hi - lo
  {
    if lo == hi then {} else Interval(lo, hi - 1) + {hi - 1}
  }

  /** Exactly weights[i] of the draws in [0, total) select provider i, so a uniform draw chooses each provider
      in proportion to its effective weight. */
  lemma DrawsPerProvider(ws: seq<int>, i: nat)
    requires NonNegative(ws) && i < |ws|
    ensures |set r | 0 <= r < Sum(ws) && Selects(ws, r, i)| == ws[i]
  {
    hide Prefix;
    NextPrefix(ws, i);
    PrefixIsMonotone(ws, 0, i);
    PrefixIsMonotone(ws, i + 1, |ws|);
    assert (set r | 0 <= r < Sum(ws) && Selects(ws, r, i)) == Interval(Prefix(ws, i), Prefix(ws, i + 1));
  }
}
