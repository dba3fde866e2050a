/** The gate that a claim passes when the evidence it cites shares enough of its terms. A term set is what
    the tokeniser makes of a text. */
module Grounding {

  datatype Verdict = MissingEvidence | InvalidReference | Unverifiable | Unsupported | Supported(references: nat, supported: nat, covered: set<string>)

  predicate Available(ref: int, evidence: seq<set<string>>) { 1 <= ref <= |evidence| }

  predicate AllAvailable(refs: seq<int>, evidence: seq<set<string>>) {
    forall k :: 0 <= k < |refs| ==> Available(refs[k], evidence)
  }

  /** The terms of the evidence that a reference names. */
  function Cited(ref: int, evidence: seq<set<string>>): set<string> {
    if Available(ref, evidence) then evidence[ref - 1] else {}
  }

  /** The claim's terms that some cited text holds. */
  ghost function Coverage(claim: set<string>, refs: seq<int>, evidence: seq<set<string>>): set<string> {
    set t | t in claim && exists ref :: ref in refs && t in Cited(ref, evidence)
  }

  function Hit(claim: set<string>, ref: int, evidence: seq<set<string>>): nat {
    if claim * Cited(ref, evidence) != {} then 1 else 0
  }

  /** How many of the references share a term with the claim; a repeated reference counts again. */
  function Hits(claim: set<string>, refs: seq<int>, evidence: seq<set<string>>): nat {
    if refs == [] then 0
    else Hits(claim, refs[..|refs| - 1], evidence) + Hit(claim, refs[|refs| - 1], evidence)
  }

  /** At least 0.08 of the claim's terms. */
  predicate Enough(covered: int, claimed: int) { 25 * covered >= 2 * claimed }

  ghost function VerdictOf(claim: set<string>, refs: seq<int>, evidence: seq<set<string>>): Verdict {
    if refs == [] then MissingEvidence
    else if !AllAvailable(refs, evidence) then InvalidReference
    else if claim == {} then Unverifiable
    else if Coverage(claim, refs, evidence) == {} || !Enough(|Coverage(claim, refs, evidence)|, |claim|) then Unsupported
    else Supported(|refs|, Hits(claim, refs, evidence), Coverage(claim, refs, evidence))
  }

  lemma CoverageOneMore(claim: set<string>, refs: seq<int>, ref: int, evidence: seq<set<string>>)
    ensures Coverage(claim, refs + [ref], evidence) == Coverage(claim, refs, evidence) + claim * Cited(ref, evidence)
  {
  }

  lemma HitsOneMore(claim: set<string>, refs: seq<int>, ref: int, evidence: seq<set<string>>)
    ensures Hits(claim, refs + [ref], evidence) == Hits(claim, refs, evidence) + Hit(claim, ref, evidence)
  {
    assert (refs + [ref])[..|refs|] == refs;
  }

  /** No reference hits exactly when nothing is covered. */
  lemma {:induction false} HitsIffCoverage(claim: set<string>, refs: seq<int>, evidence: seq<set<string>>)
    ensures Hits(claim, refs, evidence) == 0 <==> Coverage(claim, refs, evidence) == {}
  {
    if refs != [] {
      var init, last := refs[..|refs| - 1], refs[|refs| - 1];
      HitsIffCoverage(claim, init, evidence);
      CoverageOneMore(claim, init, last, evidence);
      assert refs == init + [last];
    }
  }

  /** What the loop has counted and covered after some references. */
  ghost predicate Tallied(claim: set<string>, refs: seq<int>, evidence: seq<set<string>>, supported: nat, covered: set<string>) {
    covered == Coverage(claim, refs, evidence) && supported == Hits(claim, refs, evidence)
  }

  lemma TallyOneMore(claim: set<string>, refs: seq<int>, ref: int, evidence: seq<set<string>>, supported: nat, covered: set<string>)
    requires Tallied(claim, refs, evidence, supported, covered)
    ensures Tallied(claim, refs + [ref], evidence, supported + Hit(claim, ref, evidence), covered + claim * Cited(ref, evidence))
  {
    CoverageOneMore(claim, refs, ref, evidence);
    HitsOneMore(claim, refs, ref, evidence);
  }

  method Tally(claim: set<string>, refs: seq<int>, evidence: seq<set<string>>) returns (supported: nat, covered: set<string>)
    requires AllAvailable(refs, evidence)
    ensures Tallied(claim, refs, evidence, supported, covered)
  {
    supported, covered := 0, {};
    var i := 0;
    while i < |refs|
      invariant i <= |refs| && Tallied(claim, refs[..i], evidence, supported, covered)
    {
      var overlap := claim * evidence[refs[i] - 1];
      TallyOneMore(claim, refs[..i], refs[i], evidence, supported, covered);
      assert refs[..i + 1] == refs[..i] + [refs[i]];
      if overlap != {} {
        supported := supported + 1;
        covered := covered + overlap;
      }
      i := i + 1;
    }
    assert refs[..i] == refs;
  }

  method Validate(claim: set<string>, refs: seq<int>, evidence: seq<set<string>>) returns (v: Verdict)
    ensures v == VerdictOf(claim, refs, evidence)
  {
    if refs == [] { return MissingEvidence; }
    if !AllAvailable(refs, evidence) { return InvalidReference; }
    if claim == {} { return Unverifiable; }
    var supported, covered := Tally(claim, refs, evidence);
    HitsIffCoverage(claim, refs, evidence);
    if supported == 0 || !Enough(|covered|, |claim|) { return Unsupported; }
    return Supported(|refs|, supported, covered);
  }

  // ------------------------------------------------------------------ order and further evidence

  lemma {:induction false} HitsWithout(claim: set<string>, a: seq<int>, x: int, b: seq<int>, evidence: seq<set<string>>)
    ensures Hits(claim, a + [x] + b, evidence) == Hits(claim, a + b, evidence) + Hit(claim, x, evidence)
    decreases |b|
  {
    if b == [] {
      HitsOneMore(claim, a, x, evidence);
      assert a + [x] + b == a + [x] && a + b == a;
    } else {
      var init, last := b[..|b| - 1], b[|b| - 1];
      HitsWithout(claim, a, x, init, evidence);
      HitsOneMore(claim, a + [x] + init, last, evidence);
      HitsOneMore(claim, a + init, last, evidence);
      assert a + [x] + b == (a + [x] + init) + [last] && a + b == (a + init) + [last];
    }
  }

  /** Where a member stands in a sequence. */
  lemma SplitAt(q: seq<int>, x: int) returns (a: seq<int>, b: seq<int>)
    requires x in multiset(q)
    ensures q == a + [x] + b
  {
    var k :| 0 <= k < |q| && q[k] == x;
    a, b := q[..k], q[k + 1..];
  }

  lemma RestIsSame(init: seq<int>, x: int, a: seq<int>, b: seq<int>)
    requires multiset(init + [x]) == multiset(a + [x] + b)
    ensures multiset(init) == multiset(a + b)
  {
    assert multiset(init) == multiset(init + [x]) - multiset{x};
    assert multiset(a + b) == multiset(a + [x] + b) - multiset{x};
  }

  lemma {:induction false} HitsInAnyOrder(claim: set<string>, p: seq<int>, q: seq<int>, evidence: seq<set<string>>)
    requires multiset(p) == multiset(q)
    ensures Hits(claim, p, evidence) == Hits(claim, q, evidence)
    decreases |p|
  {
    if p == [] {
      assert |q| == |multiset(q)| == 0;
    } else {
      var init, x := p[..|p| - 1], p[|p| - 1];
      assert p == init + [x];
      assert x in multiset(p);
      var a, b := SplitAt(q, x);
      RestIsSame(init, x, a, b);
      HitsInAnyOrder(claim, init, a + b, evidence);
      HitsWithout(claim, a, x, b, evidence);
      HitsOneMore(claim, init, x, evidence);
    }
  }

  lemma SameMembers(p: seq<int>, q: seq<int>)
    requires multiset(p) == multiset(q)
    ensures |p| == |q| && forall x :: x in p <==> x in q
  {
    assert |p| == |multiset(p)| == |multiset(q)| == |q|;
    forall x ensures x in p <==> x in q {
      assert (x in p <==> x in multiset(p)) && (x in q <==> x in multiset(q));
    }
  }

  lemma AvailableByMember(refs: seq<int>, evidence: seq<set<string>>)
    ensures AllAvailable(refs, evidence) <==> forall x :: x in refs ==> Available(x, evidence)
  {
  }

  /** The order in which a claim lists its references does not matter. */
  lemma OrderDoesNotMatter(claim: set<string>, p: seq<int>, q: seq<int>, evidence: seq<set<string>>)
    requires multiset(p) == multiset(q)
    ensures VerdictOf(claim, p, evidence) == VerdictOf(claim, q, evidence)
  {
    SameMembers(p, q);
    AvailableByMember(p, evidence);
    AvailableByMember(q, evidence);
    HitsInAnyOrder(claim, p, q, evidence);
    assert Coverage(claim, p, evidence) == Coverage(claim, q, evidence);
  }

  lemma SubsetIsSmaller(a: set<string>, b: set<string>)
    requires a <= b
    ensures |a| <= |b|
  {
    assert b == a + (b - a) && a * (b - a) == {};
  }

  /** Citing further evidence never turns an accepted claim away. */
  lemma MoreEvidenceKeepsSupport(claim: set<string>, refs: seq<int>, ref: int, evidence: seq<set<string>>)
    requires VerdictOf(claim, refs, evidence).Supported? && Available(ref, evidence)
    ensures var v := VerdictOf(claim, refs + [ref], evidence);
      v.Supported? && VerdictOf(claim, refs, evidence).covered <= v.covered
  {
    CoverageOneMore(claim, refs, ref, evidence);
    SubsetIsSmaller(Coverage(claim, refs, evidence), Coverage(claim, refs + [ref], evidence));
  }

  /** A claim is accepted exactly when it cites something, cites nothing that is not there, has terms, and at least
      one and at least 0.08 of them are found in what it cites. */
  lemma SupportedIff(claim: set<string>, refs: seq<int>, evidence: seq<set<string>>)
    ensures VerdictOf(claim, refs, evidence).Supported?
            <==> && refs != [] && (forall k :: 0 <= k < |refs| ==> 1 <= refs[k] <= |evidence|) && claim != {}
                 && Coverage(claim, refs, evidence) != {} && 100 * |Coverage(claim, refs, evidence)| >= 8 * |claim|
    ensures VerdictOf(claim, refs, evidence) == MissingEvidence <==> refs == []
    ensures VerdictOf(claim, refs, evidence) == InvalidReference
            <==> exists k :: 0 <= k < |refs| && (refs[k] < 1 || refs[k] > |evidence|)
  {
  }

  ghost function HitPositions(claim: set<string>, refs: seq<int>, evidence: seq<set<string>>): set<int> {
    set k | 0 <= k < |refs| && exists t :: t in claim && t in Cited(refs[k], evidence)
  }

  lemma PositionsOneMore(claim: set<string>, refs: seq<int>, ref: int, evidence: seq<set<string>>)
    ensures |HitPositions(claim, refs + [ref], evidence)| == |HitPositions(claim, refs, evidence)| + Hit(claim, ref, evidence)
  {
    var before, n := HitPositions(claim, refs, evidence), |refs|;
    HitIs(claim, ref, evidence);
    assert n !in before;
    assert HitPositions(claim, refs + [ref], evidence) == before + if Hit(claim, ref, evidence) == 1 then {n} else {};
  }

  /** The number of supported references is that of the positions whose evidence shares a term with the claim. */
  lemma {:induction false} HitsAreCounted(claim: set<string>, refs: seq<int>, evidence: seq<set<string>>)
    ensures Hits(claim, refs, evidence) == |HitPositions(claim, refs, evidence)|
    decreases |refs|
  {
    if refs != [] {
      var init, last := refs[..|refs| - 1], refs[|refs| - 1];
      HitsAreCounted(claim, init, evidence);
      PositionsOneMore(claim, init, last, evidence);
      assert refs == init + [last];
    }
  }

  lemma HitIs(claim: set<string>, ref: int, evidence: seq<set<string>>)
    ensures Hit(claim, ref, evidence) == 1 <==> exists t :: t in claim && t in Cited(ref, evidence)
    ensures Hit(claim, ref, evidence) == 0 || Hit(claim, ref, evidence) == 1
  {
    if t :| t in claim && t in Cited(ref, evidence) { assert t in claim * Cited(ref, evidence); }
    else { assert claim * Cited(ref, evidence) == {}; }
  }
}
