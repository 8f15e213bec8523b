/** The success-based sort promises that providers without enough samples keep their order. What it does is
    rotate them: each provider with enough samples that stands behind m without moves the first of these m
    behind the others. This module says exactly when nothing is left of all that. */
module SortStability {
  import opened Registry
  import opened Router
  import opened Rotations

  // ---------- the providers without enough samples, and who stands behind how many of them

  /** The providers without enough samples, in order. */
  function Unranked(v: View, s: seq<Entry>): seq<Entry> {
    if s == [] then []
    else
      var (init, last) := (s[..|s| - 1], s[|s| - 1]);
      Unranked(v, init) + if v.Enough(last) then [] else [last]
  }

  /** For each provider with enough samples, how many without stand before it. */
  function Marks(v: View, s: seq<Entry>): seq<nat> {
    if s == [] then []
    else
      var (init, last) := (s[..|s| - 1], s[|s| - 1]);
      Marks(v, init) + if v.Enough(last) then [|Unranked(v, init)|] else []
  }

  lemma OneMore(v: View, s: seq<Entry>, e: Entry)
    ensures Unranked(v, s + [e]) == Unranked(v, s) + if v.Enough(e) then [] else [e]
    ensures Marks(v, s + [e]) == Marks(v, s) + if v.Enough(e) then [|Unranked(v, s)|] else []
  {
    assert (s + [e])[..|s|] == s;
  }

  lemma {:induction false} MarksFit(v: View, s: seq<Entry>)
    ensures Rotations.Within(Marks(v, s), |Unranked(v, s)|) && NonDecreasing(Marks(v, s))
  {
    if s != [] { MarksFit(v, s[..|s| - 1]); }
  }

  // The order that the rotations lead to.
  function Outcome(v: View, s: seq<Entry>): seq<Entry> {
    MarksFit(v, s);
    Turned(Unranked(v, s), Marks(v, s))
  }

  // The marks of c behind a list with n providers without enough samples.
  function MarksFrom(v: View, c: seq<Entry>, n: nat): seq<nat> {
    if c == [] then []
    else
      var (init, last) := (c[..|c| - 1], c[|c| - 1]);
      MarksFrom(v, init, n) + if v.Enough(last) then [n + |Unranked(v, init)|] else []
  }

  lemma OneMoreFrom(v: View, c: seq<Entry>, e: Entry, n: nat)
    ensures MarksFrom(v, c + [e], n) == MarksFrom(v, c, n) + if v.Enough(e) then [n + |Unranked(v, c)|] else []
  {
    assert (c + [e])[..|c|] == c;
  }

  lemma {:induction false} UnrankedConcat(v: View, x: seq<Entry>, c: seq<Entry>)
    ensures Unranked(v, x + c) == Unranked(v, x) + Unranked(v, c)
    decreases |c|
  {
    if c == [] {
      assert x + c == x;
    } else {
      hide Unranked, View.Enough;
      var init, e := c[..|c| - 1], c[|c| - 1];
      UnrankedConcat(v, x, init);
      assert x + c == x + init + [e] && c == init + [e];
      OneMore(v, x + init, e);
      OneMore(v, init, e);
      var more := if v.Enough(e) then [] else [e];
      assert Unranked(v, x + c) == Unranked(v, x + init) + more;
      Associates(Unranked(v, x), Unranked(v, init), more);
    }
  }

  lemma Associates<T>(a: seq<T>, b: seq<T>, c: seq<T>)
    ensures (a + b) + c == a + (b + c)
  {
  }

  lemma {:induction false} MarksConcat(v: View, x: seq<Entry>, c: seq<Entry>)
    ensures Marks(v, x + c) == Marks(v, x) + MarksFrom(v, c, |Unranked(v, x)|)
    decreases |c|
  {
    if c == [] {
      assert x + c == x;
    } else {
      hide Unranked, Marks, MarksFrom, View.Enough;
      var init, e := c[..|c| - 1], c[|c| - 1];
      MarksConcat(v, x, init);
      UnrankedConcat(v, x, init);
      assert x + c == x + init + [e] && c == init + [e];
      OneMore(v, x + init, e);
      OneMoreFrom(v, init, e, |Unranked(v, x)|);
      var more := if v.Enough(e) then [|Unranked(v, x)| + |Unranked(v, init)|] else [];
      assert Marks(v, x + c) == Marks(v, x + init) + more;
      Associates(Marks(v, x), MarksFrom(v, init, |Unranked(v, x)|), more);
    }
  }

  lemma {:induction false} RankedOnly(v: View, s: seq<Entry>)
    requires forall k :: 0 <= k < |s| ==> v.Enough(s[k])
    ensures Unranked(v, s) == [] && Marks(v, s) == Same(0, |s|)
  {
    if s != [] {
      RankedOnly(v, s[..|s| - 1]);
      assert Same(0, |s|) == Same(0, |s| - 1) + [0];
    }
  }

  lemma {:induction false} UnrankedBehind(v: View, s: seq<Entry>, b: seq<Entry>)
    requires forall k :: 0 <= k < |b| ==> !v.Enough(b[k])
    ensures Unranked(v, s + b) == Unranked(v, s) + b && Marks(v, s + b) == Marks(v, s)
    decreases |b|
  {
    if b == [] {
      assert s + b == s;
    } else {
      var init, e := b[..|b| - 1], b[|b| - 1];
      UnrankedBehind(v, s, init);
      assert s + b == s + init + [e];
      OneMore(v, s + init, e);
    }
  }

  // ---------- one exchange

  // Behind ranked providers only, the exchange of u, first of its kind, with e, the next of the other.
  lemma ExchangeRotates(v: View, a: seq<Entry>, u: Entry, b: seq<Entry>, e: Entry, c: seq<Entry>)
    requires (forall k :: 0 <= k < |a| ==> v.Enough(a[k])) && (forall k :: 0 <= k < |b| ==> !v.Enough(b[k]))
    requires v.Enough(e) && !v.Enough(u)
    ensures Outcome(v, a + [e] + b + [u] + c) == Outcome(v, a + [u] + b + [e] + c)
  {
    hide Unranked, Marks, Turned;
    var (x, y) := (a + [u] + b + [e], a + [e] + b + [u]);
    var (m, zeros) := (1 + |b|, Same(0, |a|));
    Before(v, a, u, b, e);
    After(v, a, u, b, e);
    UnrankedConcat(v, x, c);
    UnrankedConcat(v, y, c);
    MarksConcat(v, x, c);
    MarksConcat(v, y, c);
    var more := MarksFrom(v, c, m);
    MarksFit(v, x + c);
    MarksFit(v, y + c);
    var (rest, w) := (Unranked(v, c), [u] + b + Unranked(v, c));
    assert Rotate(w, m) == b + [u] + rest;
    FirstTurn(w, |a|, m, more);
    FirstTurn(b + [u] + rest, |a|, 0, more);
  }

  lemma Before(v: View, a: seq<Entry>, u: Entry, b: seq<Entry>, e: Entry)
    requires (forall k :: 0 <= k < |a| ==> v.Enough(a[k])) && (forall k :: 0 <= k < |b| ==> !v.Enough(b[k]))
    requires v.Enough(e) && !v.Enough(u)
    ensures Unranked(v, a + [u] + b + [e]) == [u] + b
    ensures Marks(v, a + [u] + b + [e]) == Same(0, |a|) + [1 + |b|]
  {
    hide Unranked, Marks;
    RankedOnly(v, a);
    OneMore(v, a, u);
    UnrankedBehind(v, a + [u], b);
    OneMore(v, a + [u] + b, e);
  }

  lemma After(v: View, a: seq<Entry>, u: Entry, b: seq<Entry>, e: Entry)
    requires (forall k :: 0 <= k < |a| ==> v.Enough(a[k])) && (forall k :: 0 <= k < |b| ==> !v.Enough(b[k]))
    requires v.Enough(e) && !v.Enough(u)
    ensures Unranked(v, a + [e] + b + [u]) == b + [u]
    ensures Marks(v, a + [e] + b + [u]) == Same(0, |a|) + [0]
  {
    hide Unranked, Marks;
    RankedOnly(v, a);
    OneMore(v, a, e);
    UnrankedBehind(v, a + [e], b);
    OneMore(v, a + [e] + b, u);
  }

  // After turns that do nothing, the turn by m.
  lemma FirstTurn<T>(w: seq<T>, zeros: nat, m: nat, more: seq<nat>)
    requires m <= |w| && Rotations.Within(Same(0, zeros) + [m] + more, |w|)
    ensures Rotations.Within(more, |w|)
    ensures Turned(w, Same(0, zeros) + [m] + more) == Turned(Rotate(w, m), more)
  {
    var marks := Same(0, zeros) + [m] + more;
    assert forall k :: 0 <= k < |more| ==> more[k] == marks[zeros + 1 + k];
    TurnedConcat(w, Same(0, zeros) + [m], more);
    TurnedByZeros(w, zeros);
    assert (Same(0, zeros) + [m])[..zeros] == Same(0, zeros);
  }

  // ---------- one pass

  // The same providers without enough samples in the same places.
  predicate SamePattern(v: View, s: seq<Entry>, t: seq<Entry>) {
    && |s| == |t|
    && forall k :: 0 <= k < |s| ==> v.Enough(s[k]) == v.Enough(t[k]) && (!v.Enough(s[k]) ==> s[k] == t[k])
  }

  lemma {:induction false} SamePatternSameOutcome(v: View, s: seq<Entry>, t: seq<Entry>)
    requires SamePattern(v, s, t)
    ensures Unranked(v, s) == Unranked(v, t) && Marks(v, s) == Marks(v, t)
  {
    if s != [] {
      var k := |s| - 1;
      assert s[..k] + [s[k]] == s && t[..k] + [t[k]] == t;
      SamePatternSameOutcome(v, s[..k], t[..k]);
    }
  }

  lemma {:induction false} PassBehindRanked(v: View, s: seq<Entry>, i: nat, j: nat)
    requires i < j <= |s| && v.Enough(s[i])
    ensures SamePattern(v, s, v.Pass(s, i, j))
    decreases |s| - j
  {
    if j < |s| {
      PassBehindRanked(v, v.Exchange(s, i, j), i, j + 1);
    }
  }

  // Providers without enough samples are passed over.
  lemma {:induction false} PassSkips(v: View, s: seq<Entry>, i: nat, j: nat, j': nat)
    requires i < j <= j' <= |s| && forall l :: j <= l < j' ==> !v.Enough(s[l])
    ensures v.Pass(s, i, j) == v.Pass(s, i, j')
    decreases j' - j
  {
    if j < j' {
      assert v.Exchange(s, i, j) == s;
      PassSkips(v, s, i, j + 1, j');
    }
  }

  lemma Parts(s: seq<Entry>, i: nat, j: nat)
    requires i < j < |s|
    ensures s == s[..i] + [s[i]] + s[i + 1..j] + [s[j]] + s[j + 1..]
    ensures s[i := s[j]][j := s[i]] == s[..i] + [s[j]] + s[i + 1..j] + [s[i]] + s[j + 1..]
  {
  }

  lemma FirstExchange(v: View, s: seq<Entry>, i: nat, j: nat)
    requires i < j < |s| && !v.Enough(s[i]) && v.Enough(s[j])
    requires forall k :: 0 <= k < j && k != i ==> v.Enough(s[k]) == (k < i)
    ensures Outcome(v, s[i := s[j]][j := s[i]]) == Outcome(v, s)
  {
    hide Outcome;
    Parts(s, i, j);
    ExchangeRotates(v, s[..i], s[i], s[i + 1..j], s[j], s[j + 1..]);
  }

  lemma PassStep(v: View, s: seq<Entry>, i: nat, j: nat)
    requires i < j < |s|
    ensures v.Pass(s, i, j) == v.Pass(v.Exchange(s, i, j), i, j + 1)
  {
    hide View.Exchange;
  }

  lemma RankedGoesFirst(v: View, s: seq<Entry>, i: nat, j: nat)
    requires i < j < |s| && !v.Enough(s[i]) && v.Enough(s[j])
    ensures v.Exchange(s, i, j) == s[i := s[j]][j := s[i]]
  {
    hide View.Enough;
  }

  // The first exchange of the pass, and what is left of the pass behind it.
  lemma PassToExchange(v: View, s: seq<Entry>, i: nat, j: nat)
    requires i < j < |s| && !v.Enough(s[i]) && v.Enough(s[j])
    requires forall k :: i < k < j ==> !v.Enough(s[k])
    ensures v.Pass(s, i, i + 1) == v.Pass(s[i := s[j]][j := s[i]], i, j + 1)
  {
    hide View.Enough, View.Exchange, View.Pass;
    PassSkips(v, s, i, i + 1, j);
    PassStep(v, s, i, j);
    RankedGoesFirst(v, s, i, j);
  }

  lemma RestKeepsOutcome(v: View, t: seq<Entry>, i: nat, j: nat)
    requires i < j <= |t| && v.Enough(t[i])
    ensures Outcome(v, v.Pass(t, i, j)) == Outcome(v, t)
  {
    hide Unranked, Marks, Turned, View.Enough, View.Pass, SamePattern;
    PassBehindRanked(v, t, i, j);
    SamePatternSameOutcome(v, t, v.Pass(t, i, j));
  }

  lemma PassStopsAt(v: View, s: seq<Entry>, i: nat, j: nat)
    requires i < j < |s| && !v.Enough(s[i]) && v.Enough(s[j])
    requires forall k :: 0 <= k < j && k != i ==> v.Enough(s[k]) == (k < i)
    ensures Outcome(v, v.Pass(s, i, i + 1)) == Outcome(v, s)
  {
    hide Outcome, View.Enough, View.Pass;
    PassToExchange(v, s, i, j);
    FirstExchange(v, s, i, j);
    RestKeepsOutcome(v, s[i := s[j]][j := s[i]], i, j + 1);
  }

  lemma PassKeepsOutcome(v: View, s: seq<Entry>, i: nat)
    requires i < |s| && v.OrderedTo(s, i)
    ensures Outcome(v, v.Pass(s, i, i + 1)) == Outcome(v, s)
  {
    hide Unranked, Marks, Turned;
    if v.Enough(s[i]) {
      PassBehindRanked(v, s, i, i + 1);
      SamePatternSameOutcome(v, s, v.Pass(s, i, i + 1));
    } else if l :| i < l < |s| && v.Enough(s[l]) {
      var j := FirstRanked(v, s, i + 1, l);
      assert forall k :: 0 <= k < i ==> !v.Better(s[j], s[k]);
      PassStopsAt(v, s, i, j);
    } else {
      PassSkips(v, s, i, i + 1, |s|);
    }
  }

  lemma {:induction false} FirstRanked(v: View, s: seq<Entry>, i: nat, l: nat) returns (j: nat)
    requires i <= l < |s| && v.Enough(s[l])
    ensures i <= j <= l && v.Enough(s[j]) && forall k :: i <= k < j ==> !v.Enough(s[k])
    decreases l - i
  {
    if v.Enough(s[i]) {
      j := i;
    } else {
      j := FirstRanked(v, s, i + 1, l);
    }
  }

  // ---------- the sort

  lemma {:induction false} SortKeepsOutcome(v: View, s: seq<Entry>, i: nat)
    requires i <= |s| && v.OrderedTo(s, i)
    ensures Outcome(v, v.Sort(s, i)) == Outcome(v, s)
    decreases |s| - i
  {
    hide Outcome;
    if i + 1 < |s| {
      PassKeepsOutcome(v, s, i);
      v.PassKeepsOrder(s, i, i + 1);
      SortKeepsOutcome(v, v.Pass(s, i, i + 1), i + 1);
    }
  }

  lemma {:induction false} RankedFirst(v: View, t: seq<Entry>)
    requires forall k, l :: 0 <= k < l < |t| && v.Enough(t[l]) ==> v.Enough(t[k])
    ensures Marks(v, t) == Same(0, |Marks(v, t)|)
  {
    if t != [] {
      var init := t[..|t| - 1];
      RankedFirst(v, init);
      if v.Enough(t[|t| - 1]) { RankedOnly(v, init); }
    }
  }

  /** What the sort makes of the providers without enough samples: one rotation for each provider with enough
      of them, of all the former that stood before it. */
  lemma SortRotatesUnranked(v: View, s: seq<Entry>)
    ensures Rotations.Within(Marks(v, s), |Unranked(v, s)|)
    ensures Unranked(v, v.Sort(s, 0)) == Turned(Unranked(v, s), Marks(v, s))
  {
    hide Unranked, Marks, Turned;
    var t := v.Sort(s, 0);
    MarksFit(v, s);
    SortKeepsOutcome(v, s, 0);
    v.SortIsCorrect(s);
    RankedFirst(v, t);
    TurnedByZeros(Unranked(v, t), |Marks(v, t)|);
  }

  /** The promise holds exactly when, for every m > 0, the number of providers with enough samples that stand
      behind exactly m without is a multiple of m. (That it fails otherwise takes m providers that differ.) */
  lemma UnrankedKeepOrderIff(v: View, s: seq<Entry>)
    ensures (forall m :: m in Marks(v, s) && m > 0 ==> multiset(Marks(v, s))[m] % m == 0) ==>
      Unranked(v, v.Sort(s, 0)) == Unranked(v, s)
    ensures Distinct(Unranked(v, s)) && Unranked(v, v.Sort(s, 0)) == Unranked(v, s) ==>
      forall m :: m in Marks(v, s) && m > 0 ==> multiset(Marks(v, s))[m] % m == 0
  {
    hide Unranked, Marks, Turned;
    MarksFit(v, s);
    SortRotatesUnranked(v, s);
    TurnedBackIff(Unranked(v, s), Marks(v, s));
  }
}
