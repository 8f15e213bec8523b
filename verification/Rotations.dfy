/** Rotating ever longer prefixes of a list, and when that leaves the list as it was. */
module Rotations {

  /** The first m elements rotated by one to the left: the first of them goes behind the others. */
  function Rotate<T>(u: seq<T>, m: nat): (v: seq<T>)
    requires m <= |u|
    ensures |v| == |u|
  {
    if m == 0 then u else u[1..m] + [u[0]] + u[m..]
  }

  // Marks no larger than n.
  predicate Within(marks: seq<nat>, n: nat) {
    forall k :: 0 <= k < |marks| ==> marks[k] <= n
  }

  predicate NonDecreasing(marks: seq<nat>) {
    forall k, l :: 0 <= k < l < |marks| ==> marks[k] <= marks[l]
  }

  /** One rotation for each mark, in turn. */
  function Turned<T>(u: seq<T>, marks: seq<nat>): (v: seq<T>)
    requires Within(marks, |u|)
    ensures |v| == |u|
  {
    if marks == [] then u else Rotate(Turned(u, marks[..|marks| - 1]), marks[|marks| - 1])
  }

  lemma {:induction false} TurnedConcat<T>(u: seq<T>, a: seq<nat>, b: seq<nat>)
    requires Within(a, |u|) && Within(b, |u|) && Within(a + b, |u|)
    ensures Turned(u, a + b) == Turned(Turned(u, a), b)
  {
    if b == [] {
      assert a + b == a;
    } else {
      var init := b[..|b| - 1];
      assert (a + b)[..|a + b| - 1] == a + init;
      TurnedConcat(u, a, init);
    }
  }

  function Same(m: nat, c: nat): (marks: seq<nat>)
    ensures |marks| == c && forall k :: 0 <= k < c ==> marks[k] == m
  {
    seq(c, _ => m)
  }

  lemma {:induction false} TurnedByZeros<T>(u: seq<T>, c: nat)
    ensures Turned(u, Same(0, c)) == u
  {
    if c > 0 {
      assert Same(0, c)[..c - 1] == Same(0, c - 1);
      TurnedByZeros(u, c - 1);
    }
  }

  // ---------- remainders

  lemma RemainderUnique(x: nat, m: nat, q: nat, r: nat)
    requires m > 0 && x == m * q + r && r < m
    ensures x % m == r
  {
    var (q', r') := (x / m, x % m);
    assert x == m * q' + r' && 0 <= r' < m;
    Multiples(m, q', q);
    Multiples(m, q, q');
  }

  lemma Multiples(m: nat, q: nat, q': nat)
    ensures q < q' ==> m * q + m <= m * q'
  {
    if q < q' {
      var d: nat := q' - q - 1;
      assert m * q' == m * (q + 1 + d) == m * q + m + m * d;
    }
  }

  lemma RemainderAfterTurn(x: nat, m: nat)
    requires m > 0
    ensures (x + m) % m == x % m
  {
    assert x + m == m * (x / m + 1) + x % m;
    RemainderUnique(x + m, m, x / m + 1, x % m);
  }

  // Going back c places from the last of m leads to the last again only if c is a whole number of turns.
  lemma LastComesBack(c: nat, m: nat)
    requires m > 0
    ensures (m - 1 + c) % m == m - 1 <==> c % m == 0
  {
    var (q, r) := (c / m, c % m);
    assert c == m * q + r;
    if r == 0 {
      RemainderUnique(m - 1 + c, m, q, m - 1);
    } else {
      assert m - 1 + c == m * (q + 1) + (r - 1);
      RemainderUnique(m - 1 + c, m, q + 1, r - 1);
    }
  }

  // ---------- rotating one prefix c times

  lemma {:induction false} TurnedBySame<T>(u: seq<T>, m: nat, c: nat, k: nat)
    requires 0 < m <= |u| && k < |u|
    ensures Turned(u, Same(m, c))[k] == if k < m then u[(k + c) % m] else u[k]
  {
    if c == 0 {
      if k < m { RemainderUnique(k, m, 0, k); }
    } else {
      var init := Same(m, c - 1);
      assert Same(m, c)[..c - 1] == init;
      var before := if k >= m then k else if k + 1 < m then k + 1 else 0;
      TurnedBySame(u, m, c - 1, before);
      assert Turned(u, Same(m, c))[k] == Turned(u, init)[before];
      if k + 1 == m { RemainderAfterTurn(c - 1, m); }
    }
  }

  // Elements behind every mark stay.
  lemma {:induction false} TailStays<T>(u: seq<T>, marks: seq<nat>, k: nat)
    requires Within(marks, |u|) && k < |u| && forall l :: 0 <= l < |marks| ==> marks[l] <= k
    ensures Turned(u, marks)[k] == u[k]
  {
    if marks != [] { TailStays(u, marks[..|marks| - 1], k); }
  }

  lemma {:induction false} TurnedPermutes<T>(u: seq<T>, marks: seq<nat>)
    requires Within(marks, |u|)
    ensures multiset(Turned(u, marks)) == multiset(u)
  {
    if marks != [] {
      var v, m := Turned(u, marks[..|marks| - 1]), marks[|marks| - 1];
      TurnedPermutes(u, marks[..|marks| - 1]);
      if m > 0 { assert v == [v[0]] + v[1..m] + v[m..]; }
    }
  }

  predicate Distinct<T(==)>(u: seq<T>) {
    forall k, l :: 0 <= k < l < |u| ==> u[k] != u[l]
  }

  lemma DistinctByCount<T>(u: seq<T>, v: seq<T>)
    requires Distinct(u) && multiset(v) == multiset(u)
    ensures Distinct(v)
  {
    forall k, l | 0 <= k < l < |v| ensures v[k] != v[l] {
      if v[k] == v[l] {
        TwiceCounted(v, k, l);
        OnceCounted(u, v[k]);
      }
    }
  }

  lemma TwiceCounted<T>(v: seq<T>, k: nat, l: nat)
    requires k < l < |v| && v[k] == v[l]
    ensures multiset(v)[v[k]] >= 2
  {
    assert v == v[..k] + [v[k]] + v[k + 1..l] + [v[l]] + v[l + 1..];
  }

  lemma {:induction false} OnceCounted<T>(u: seq<T>, x: T)
    requires Distinct(u)
    ensures multiset(u)[x] <= 1
  {
    if u != [] {
      var init := u[..|u| - 1];
      assert u == init + [u[|u| - 1]];
      OnceCounted(init, x);
      if x == u[|u| - 1] { assert x !in init; }
    }
  }

  // ---------- the whole list

  /** Each prefix is rotated a whole number of times around. */
  predicate WholeTurns(marks: seq<nat>) {
    forall m :: m in marks && m > 0 ==> multiset(marks)[m] % m == 0
  }

  // The marks below the largest, and how often the largest comes.
  lemma {:induction false} SplitLargest(marks: seq<nat>) returns (rest: seq<nat>, m: nat, c: nat)
    requires NonDecreasing(marks) && marks != []
    ensures marks == rest + Same(m, c) && c > 0 && NonDecreasing(rest)
    ensures forall k :: 0 <= k < |rest| ==> rest[k] < m
  {
    m := marks[|marks| - 1];
    rest, c := marks[..|marks| - 1], 1;
    while rest != [] && rest[|rest| - 1] == m
      invariant |rest| + c == |marks| && c > 0 && rest == marks[..|rest|]
      invariant forall k :: |rest| <= k < |marks| ==> marks[k] == m
    {
      rest, c := rest[..|rest| - 1], c + 1;
    }
    assert marks == rest + Same(m, c);
  }

  lemma {:induction false} SameCount(m: nat, c: nat, x: nat)
    ensures multiset(Same(m, c))[x] == if x == m then c else 0
  {
    if c > 0 {
      assert Same(m, c) == Same(m, c - 1) + [m];
      SameCount(m, c - 1, x);
    }
  }

  lemma CountsOfSplit(rest: seq<nat>, m: nat, c: nat)
    requires c > 0 && forall k :: 0 <= k < |rest| ==> rest[k] < m
    ensures WholeTurns(rest + Same(m, c)) <==> WholeTurns(rest) && (m > 0 ==> c % m == 0)
  {
    var marks := rest + Same(m, c);
    assert m !in rest;
    forall x ensures multiset(marks)[x] == if x == m then c else multiset(rest)[x] {
      SameCount(m, c, x);
    }
    assert marks[|rest|] == m;
    assert forall x :: x in marks <==> x == m || x in rest;
  }

  lemma WholeTurnComesBack(k: nat, c: nat, m: nat)
    requires k < m && c % m == 0
    ensures (k + c) % m == k
  {
    assert k + c == m * (c / m) + k;
    RemainderUnique(k + c, m, c / m, k);
  }

  lemma WholeTurn<T>(u: seq<T>, m: nat, c: nat, k: nat)
    requires 0 < m <= |u| && c % m == 0 && k < |u|
    ensures Turned(u, Same(m, c))[k] == u[k]
  {
    hide Turned;
    TurnedBySame(u, m, c, k);
    if k < m { WholeTurnComesBack(k, c, m); }
  }

  // Whole turns of the longest prefix leave everything as it was.
  lemma WholeTurnsLeave<T>(u: seq<T>, m: nat, c: nat)
    requires m <= |u| && (m > 0 ==> c % m == 0)
    ensures Turned(u, Same(m, c)) == u
  {
    hide Turned;
    if m == 0 {
      TurnedByZeros(u, c);
    } else {
      forall k | 0 <= k < |u| ensures Turned(u, Same(m, c))[k] == u[k] {
        WholeTurn(u, m, c, k);
      }
    }
  }

  // Where all elements differ, only whole turns of the longest prefix bring its last element back, once the
  // shorter prefixes have left it where it was.
  lemma OnlyWholeTurns<T>(u: seq<T>, rest: seq<nat>, m: nat, c: nat)
    requires Within(rest, |u|) && 0 < m <= |u| && Distinct(u)
    requires forall k :: 0 <= k < |rest| ==> rest[k] < m
    requires Turned(Turned(u, rest), Same(m, c)) == u
    ensures c % m == 0
  {
    hide Turned, Same;
    var v := Turned(u, rest);
    TailStays(u, rest, m - 1);
    TurnedPermutes(u, rest);
    DistinctByCount(u, v);
    TurnedBySame(v, m, c, m - 1);
    LastComesBack(c, m);
    assert v[(m - 1 + c) % m] == v[m - 1];
  }

  /** Rotating prefixes that never get shorter restores the list if each is rotated a whole number of times
      around, and, where all elements differ, only then. */
  lemma {:induction false} TurnedBackIff<T>(u: seq<T>, marks: seq<nat>)
    requires Within(marks, |u|) && NonDecreasing(marks)
    ensures WholeTurns(marks) ==> Turned(u, marks) == u
    ensures Distinct(u) && Turned(u, marks) == u ==> WholeTurns(marks)
    decreases |marks|
  {
    if marks != [] {
      var rest, m, c := SplitLargest(marks);
      assert marks[|rest|] == m;
      forall k | 0 <= k < |rest| ensures rest[k] <= |u| { assert marks[k] == rest[k]; }
      TurnedConcat(u, rest, Same(m, c));
      CountsOfSplit(rest, m, c);
      TurnedBackIff(u, rest);
      hide Turned, WholeTurns, Distinct, Same;
      var v := Turned(u, rest);
      if m == 0 || c % m == 0 { WholeTurnsLeave(v, m, c); }
      if Distinct(u) && Turned(u, marks) == u && m > 0 { OnlyWholeTurns(u, rest, m, c); }
    }
  }
}
