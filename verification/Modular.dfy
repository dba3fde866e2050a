/** Products, quotients and remainders of natural numbers by repeated addition and subtraction, tied to
    Dafny's operators, and sequences that go round and round a list. */
module Modular {

  function Times(n: nat, p: nat): nat { if n == 0 then 0 else Times(n - 1, p) + p }

  function Div(x: nat, p: nat): nat
    requires p > 0
  {
    if x < p then 0 else Div(x - p, p) + 1
  }

  function Mod(x: nat, p: nat): (m: nat)
    requires p > 0
    ensures m < p
  {
    if x < p then x else Mod(x - p, p)
  }

  lemma {:induction false} TimesIsProduct(n: nat, p: nat)
    ensures Times(n, p) == n * p
  {
    if n > 0 {
      TimesIsProduct(n - 1, p);
      assert n * p == (n - 1) * p + p;
    }
  }

  lemma {:induction false} DivMod(x: nat, p: nat)
    requires p > 0
    ensures x == Times(Div(x, p), p) + Mod(x, p)
  {
    if x >= p { DivMod(x - p, p); }
  }

  lemma {:induction false} TimesMonotone(a: nat, b: nat, p: nat)
    requires a < b
    ensures Times(a, p) + p <= Times(b, p)
    decreases b
  {
    if a + 1 < b { TimesMonotone(a, b - 1, p); }
  }

  lemma {:induction false} QuotientUnique(p: nat, q: nat, m: nat, q': nat, m': nat)
    requires Times(q, p) + m == Times(q', p) + m' && m < p && m' < p
    ensures q == q' && m == m'
  {
    if q < q' { TimesMonotone(q, q', p); } else if q > q' { TimesMonotone(q', q, p); }
  }

  lemma OperatorsDivide(x: nat, p: nat)
    requires p > 0
    ensures x / p >= 0 && x / p * p + x % p == x
  {
  }

  /** Quotient and remainder by repeated subtraction are the operators. */
  lemma DivModAreOperators(x: nat, p: nat)
    requires p > 0
    ensures Div(x, p) == x / p && Mod(x, p) == x % p
  {
    OperatorsDivide(x, p);
    TimesIsProduct(x / p, p);
    DivMod(x, p);
    QuotientUnique(p, x / p, x % p, Div(x, p), Mod(x, p));
  }

  // ------------------------------------------------------------------ going round a list

  /** out goes round and round xs, starting at position from. */
  ghost predicate Cycles<T>(xs: seq<T>, from: nat, out: seq<T>)
    requires xs != []
  {
    forall i :: 0 <= i < |out| ==> out[i] == xs[Mod(from + i, |xs|)]
  }

  ghost predicate Distinct<T(!new)>(xs: seq<T>) { forall i, j :: 0 <= i < j < |xs| ==> xs[i] != xs[j] }

  /** No two members of xs differ by more than one in how often out holds them. */
  ghost predicate Balanced<T(!new)>(xs: seq<T>, out: seq<T>) {
    forall a, b :: a in xs && b in xs ==> multiset(out)[a] <= multiset(out)[b] + 1
  }

  function Rotated<T>(xs: seq<T>, k: nat): seq<T>
    requires k < |xs|
  {
    xs[k..] + xs[..k]
  }

  lemma RotatedAt<T>(xs: seq<T>, k: nat, i: nat)
    requires k < |xs| && i < |xs|
    ensures Rotated(xs, k)[i] == xs[Mod(k + i, |xs|)]
  {
  }

  lemma RotatedKeeps<T>(xs: seq<T>, k: nat)
    requires k < |xs|
    ensures multiset(Rotated(xs, k)) == multiset(xs)
  {
    assert xs == xs[..k] + xs[k..];
  }

  lemma {:induction false} DistinctOnce<T(!new)>(xs: seq<T>, x: T)
    requires Distinct(xs)
    ensures multiset(xs)[x] == if x in xs then 1 else 0
  {
    if xs != [] {
      assert xs == [xs[0]] + xs[1..];
      DistinctOnce(xs[1..], x);
    }
  }

  lemma CyclesShort<T>(xs: seq<T>, from: nat, out: seq<T>)
    requires xs != [] && from < |xs| && Cycles(xs, from, out) && |out| <= |xs|
    ensures out == Rotated(xs, from)[..|out|]
  {
    forall i | 0 <= i < |out| ensures out[i] == Rotated(xs, from)[i] { RotatedAt(xs, from, i); }
  }

  lemma CyclesRest<T>(xs: seq<T>, from: nat, out: seq<T>)
    requires xs != [] && Cycles(xs, from, out) && |out| >= |xs|
    ensures Cycles(xs, from, out[|xs|..])
  {
    forall i | 0 <= i < |out| - |xs| ensures out[|xs|..][i] == xs[Mod(from + i, |xs|)] {
      assert out[|xs| + i] == xs[Mod(from + (|xs| + i), |xs|)];
    }
  }

  lemma ShortIsBalanced<T(!new)>(xs: seq<T>, from: nat, out: seq<T>)
    requires xs != [] && from < |xs| && Distinct(xs) && Cycles(xs, from, out) && |out| < |xs|
    ensures Balanced(xs, out)
  {
    CyclesShort(xs, from, out);
    RotatedKeeps(xs, from);
    var turn := Rotated(xs, from);
    assert turn == out + turn[|out|..];
    forall a, b | a in xs && b in xs ensures multiset(out)[a] <= multiset(out)[b] + 1 {
      DistinctOnce(xs, a);
      assert multiset(turn)[a] == multiset(out)[a] + multiset(turn[|out|..])[a];
    }
  }

  /** A whole turn uses every member once. */
  lemma FirstTurn<T(!new)>(xs: seq<T>, from: nat, out: seq<T>, x: T)
    requires xs != [] && from < |xs| && Distinct(xs) && Cycles(xs, from, out) && |out| >= |xs| && x in xs
    ensures multiset(out)[x] == 1 + multiset(out[|xs|..])[x]
  {
    var first, rest := out[..|xs|], out[|xs|..];
    assert Cycles(xs, from, first);
    CyclesShort(xs, from, first);
    RotatedKeeps(xs, from);
    DistinctOnce(xs, x);
    assert Rotated(xs, from)[..|xs|] == Rotated(xs, from);
    assert out == first + rest;
  }

  /** Going round a list of distinct members uses any two of them equally often, give or take one. */
  lemma {:induction false} CyclesAreBalanced<T(!new)>(xs: seq<T>, from: nat, out: seq<T>)
    requires xs != [] && from < |xs| && Distinct(xs) && Cycles(xs, from, out)
    ensures Balanced(xs, out)
    decreases |out|
  {
    if |out| < |xs| {
      ShortIsBalanced(xs, from, out);
    } else {
      CyclesRest(xs, from, out);
      CyclesAreBalanced(xs, from, out[|xs|..]);
      forall a, b | a in xs && b in xs ensures multiset(out)[a] <= multiset(out)[b] + 1 {
        FirstTurn(xs, from, out, a);
        FirstTurn(xs, from, out, b);
      }
    }
  }

  lemma CyclesAppend<T>(xs: seq<T>, out: seq<T>, more: seq<T>)
    requires xs != [] && Cycles(xs, 0, out) && Cycles(xs, |out|, more)
    ensures Cycles(xs, 0, out + more)
  {
    forall i | |out| <= i < |out + more| ensures (out + more)[i] == xs[Mod(0 + i, |xs|)] {
      assert more[i - |out|] == xs[Mod(|out| + (i - |out|), |xs|)];
    }
  }

  lemma CyclesEarlier<T>(xs: seq<T>, from: nat, out: seq<T>)
    requires xs != [] && from >= |xs| && Cycles(xs, from, out)
    ensures Cycles(xs, from - |xs|, out)
  {
    var k := from - |xs|;
    forall i | 0 <= i < |out| ensures out[i] == xs[Mod(k + i, |xs|)] {
      assert Mod(from + i, |xs|) == Mod(k + i, |xs|);
    }
  }

  lemma {:induction false} CyclesFromAnywhere<T>(xs: seq<T>, from: nat, out: seq<T>)
    requires xs != [] && Cycles(xs, from, out)
    ensures Cycles(xs, Mod(from, |xs|), out)
    decreases from
  {
    if from >= |xs| {
      CyclesEarlier(xs, from, out);
      CyclesFromAnywhere(xs, from - |xs|, out);
    }
  }

  /** The positions of a list of n members. */
  function UpTo(n: nat): (r: seq<nat>)
    ensures |r| == n && forall i :: 0 <= i < n ==> r[i] == i
  {
    if n == 0 then [] else UpTo(n - 1) + [n - 1]
  }

  /** The positions that going round p places from a start takes in n steps. */
  function Positions(from: nat, n: nat, p: nat): (r: seq<nat>)
    requires p > 0
    ensures |r| == n
  {
    if n == 0 then [] else Positions(from, n - 1, p) + [Mod(from + (n - 1), p)]
  }

  lemma {:induction false} PositionsAt(from: nat, n: nat, p: nat, i: nat)
    requires p > 0 && i < n
    ensures Positions(from, n, p)[i] == Mod(from + i, p)
  {
    if i < n - 1 { PositionsAt(from, n - 1, p, i); }
  }

  /** Going round any list uses its positions equally often, give or take one. */
  lemma PositionsAreBalanced<T>(xs: seq<T>, from: nat, out: seq<T>)
    requires xs != [] && Cycles(xs, from, out)
    ensures Balanced(UpTo(|xs|), Positions(from, |out|, |xs|))
    ensures forall i :: 0 <= i < |out| ==> Positions(from, |out|, |xs|)[i] < |xs| && out[i] == xs[Positions(from, |out|, |xs|)[i]]
  {
    var all, positions := UpTo(|xs|), Positions(from, |out|, |xs|);
    forall i | 0 <= i < |out| ensures positions[i] == Mod(from + i, |xs|) { PositionsAt(from, |out|, |xs|, i); }
    assert Cycles(all, from, positions);
    CyclesFromAnywhere(all, from, positions);
    CyclesAreBalanced(all, Mod(from, |xs|), positions);
  }
}
