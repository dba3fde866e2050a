/** Weighted account choice and the ordered candidate list of ProviderRouter (app/providers/router.py).
    `digest` stands for the first 32 bits of the SHA-256 of the routing key. */
module Router {

  datatype Account = Account(id: nat, weight: int)

  /** The accounts configured for a spec's provider, and whether it supports structured generation. */
  datatype Spec = Spec(supported: bool, accounts: seq<Account>)

  datatype Candidate = Candidate(spec: nat, account: nat)

  datatype Result<+T> = Ok(value: T) | NoProviderAvailable

  function Positive(w: int): nat { if w > 0 then w else 0 }

  /** sum(max(0, weight)) */
  function Total(accounts: seq<Account>): nat {
    if accounts == [] then 0
    else Total(accounts[..|accounts| - 1]) + Positive(accounts[|accounts| - 1].weight)
  }

  /** The value of `cursor` after the first n accounts. */
  function Cursor(accounts: seq<Account>, n: nat): int
    requires n <= |accounts|
  {
    if n == 0 then 0 else Cursor(accounts, n - 1) + accounts[n - 1].weight
  }

  /** Account i is the first whose cursor passes the slot. */
  ghost predicate Reaches(accounts: seq<Account>, slot: nat, i: nat) {
    && i < |accounts|
    && slot < Cursor(accounts, i + 1)
    && forall c :: 1 <= c <= i ==> Cursor(accounts, c) <= slot
  }

  /** No cursor passes the slot: the loop runs out and the last account is returned. */
  ghost predicate FallsThrough(accounts: seq<Account>, slot: nat) {
    forall c :: 1 <= c <= |accounts| ==> Cursor(accounts, c) <= slot
  }

  /** The account that the routing key's slot belongs to; the first one when there is no choice to make. */
  ghost predicate Chosen(accounts: seq<Account>, digest: nat, failover: bool, i: nat) {
    && i < |accounts|
    && (|accounts| == 1 || failover || Total(accounts) == 0 ==> i == 0)
    && (|accounts| > 1 && !failover && Total(accounts) > 0 ==>
          var slot := digest % Total(accounts);
          Reaches(accounts, slot, i) || (FallsThrough(accounts, slot) && i == |accounts| - 1))
  }

  /** The choice is determined. */
  lemma ChosenIsUnique(accounts: seq<Account>, digest: nat, failover: bool, i: nat, j: nat)
    requires Chosen(accounts, digest, failover, i) && Chosen(accounts, digest, failover, j)
    ensures i == j
  {
  }

  method SelectAccount(accounts: seq<Account>, digest: nat, failover: bool) returns (i: nat)
    requires accounts != []
    ensures Chosen(accounts, digest, failover, i)
  {
    if |accounts| == 1 || failover { return 0; }
    var total := Total(accounts);
    if total <= 0 { return 0; }
    i := OwnerOf(accounts, digest % total);
  }

  /** The loop over the accounts. */
  method OwnerOf(accounts: seq<Account>, slot: nat) returns (i: nat)
    requires accounts != []
    ensures Reaches(accounts, slot, i) || (FallsThrough(accounts, slot) && i == |accounts| - 1)
  {
    var cursor := 0;
    for k := 0 to |accounts|
      invariant cursor == Cursor(accounts, k)
      invariant forall c :: 1 <= c <= k ==> Cursor(accounts, c) <= slot
    {
      cursor := cursor + accounts[k].weight;
      if slot < cursor { return k; }
    }
    return |accounts| - 1;
  }

  // ------------------------------------------------------------------ the slots are partitioned

  ghost predicate NonNegative(accounts: seq<Account>) {
    forall k :: 0 <= k < |accounts| ==> accounts[k].weight >= 0
  }

  lemma {:induction false} CursorMonotone(accounts: seq<Account>, i: nat, j: nat)
    requires NonNegative(accounts) && i <= j <= |accounts|
    ensures 0 <= Cursor(accounts, i) <= Cursor(accounts, j)
    decreases j
  {
    if i < j { CursorMonotone(accounts, i, j - 1); }
    else if j > 0 { CursorMonotone(accounts, j - 1, j - 1); }
  }

  lemma {:induction false} CursorPrefix(accounts: seq<Account>, n: nat, m: nat)
    requires n <= m <= |accounts|
    ensures Cursor(accounts[..m], n) == Cursor(accounts, n)
    decreases n
  {
    if n > 0 { CursorPrefix(accounts, n - 1, m); }
  }

  lemma {:induction false} CursorEndsAtTotal(accounts: seq<Account>)
    requires NonNegative(accounts)
    ensures Cursor(accounts, |accounts|) == Total(accounts)
    decreases |accounts|
  {
    if accounts != [] {
      var init := accounts[..|accounts| - 1];
      CursorEndsAtTotal(init);
      CursorPrefix(accounts, |init|, |init|);
    }
  }

  /** With non-negative weights account i gets exactly the slots [cursor(i), cursor(i + 1)). */
  lemma ReachesIffInRange(accounts: seq<Account>, slot: nat, i: nat)
    requires NonNegative(accounts) && i < |accounts|
    ensures Reaches(accounts, slot, i) <==> Cursor(accounts, i) <= slot < Cursor(accounts, i + 1)
  {
    if Cursor(accounts, i) <= slot {
      forall c | 1 <= c <= i ensures Cursor(accounts, c) <= slot {
        CursorMonotone(accounts, c, i);
      }
    } else if i > 0 {
      assert !Reaches(accounts, slot, i);
    }
  }

  ghost function SlotsOf(accounts: seq<Account>, i: nat): set<nat> {
    set slot: nat | slot < Total(accounts) && Reaches(accounts, slot, i)
  }

  predicate InRange(x: nat, lo: nat, hi: nat) { lo <= x < hi }

  lemma {:induction false} RangeSize(lo: nat, hi: nat, xs: set<nat>)
    requires lo <= hi && forall x :: x in xs <==> InRange(x, lo, hi)
    ensures |xs| == hi - lo
    decreases hi
  {
    if lo < hi {
      assert InRange(hi - 1, lo, hi);
      assert forall x :: InRange(x, lo, hi) ==> InRange(x, lo, hi - 1) || x == hi - 1;
      assert forall x :: InRange(x, lo, hi - 1) ==> InRange(x, lo, hi) && x != hi - 1;
      RangeSize(lo, hi - 1, xs - {hi - 1});
    } else {
      assert forall x :: x in xs ==> InRange(x, lo, hi);
      assert xs == {};
    }
  }

  /** Account i is chosen for exactly weight_i of the `total` slots; a zero weight is never chosen. */
  lemma ChosenInProportion(accounts: seq<Account>, i: nat)
    requires NonNegative(accounts) && i < |accounts|
    ensures |SlotsOf(accounts, i)| == accounts[i].weight
  {
    CursorMonotone(accounts, 0, i);
    CursorMonotone(accounts, i, i + 1);
    CursorMonotone(accounts, i + 1, |accounts|);
    CursorEndsAtTotal(accounts);
    var lo: nat, hi: nat := Cursor(accounts, i), Cursor(accounts, i + 1);
    forall slot: nat ensures slot in SlotsOf(accounts, i) <==> InRange(slot, lo, hi) {
      ReachesIffInRange(accounts, slot, i);
    }
    RangeSize(lo, hi, SlotsOf(accounts, i));
  }

  // ------------------------------------------------------------------ negative weights

  /** Some account of positive weight comes after one of negative weight. */
  ghost predicate PositiveAfterNegative(accounts: seq<Account>) {
    exists i, j :: 0 <= i < j < |accounts| && accounts[i].weight < 0 < accounts[j].weight
  }

  lemma {:induction false} CursorAtMostTotal(accounts: seq<Account>, n: nat)
    requires n <= |accounts|
    ensures Cursor(accounts, n) <= Total(accounts[..n])
    ensures (exists i :: 0 <= i < n && accounts[i].weight < 0) ==> Cursor(accounts, n) < Total(accounts[..n])
    decreases n
  {
    if n > 0 {
      CursorAtMostTotal(accounts, n - 1);
      assert accounts[..n][..n - 1] == accounts[..n - 1];
    }
  }

  lemma {:induction false} TotalGrows(accounts: seq<Account>, n: nat, m: nat)
    requires n <= m <= |accounts|
    ensures Total(accounts[..n]) <= Total(accounts[..m])
    ensures (exists j :: n <= j < m && accounts[j].weight > 0) ==> Total(accounts[..n]) < Total(accounts[..m])
    ensures (forall j :: n <= j < m ==> accounts[j].weight <= 0) ==> Total(accounts[..n]) == Total(accounts[..m])
    decreases m
  {
    if n < m {
      TotalGrows(accounts, n, m - 1);
      assert accounts[..m][..m - 1] == accounts[..m - 1];
    }
  }

  /** Before the first negative weight the cursor is the running total. */
  lemma {:induction false} CursorIsTotal(accounts: seq<Account>, n: nat)
    requires n <= |accounts| && forall i :: 0 <= i < n ==> accounts[i].weight >= 0
    ensures Cursor(accounts, n) == Total(accounts[..n])
    decreases n
  {
    if n > 0 {
      CursorIsTotal(accounts, n - 1);
      assert accounts[..n][..n - 1] == accounts[..n - 1];
    }
  }

  /** The weights are plain settings, so they may be negative. The fall-through return is dead code
      exactly when no positive weight follows a negative one. */
  lemma FallThroughUnreachableIff(accounts: seq<Account>)
    requires Total(accounts) > 0
    ensures (forall slot: nat :: slot < Total(accounts) ==> !FallsThrough(accounts, slot))
            <==> !PositiveAfterNegative(accounts)
  {
    assert accounts[..|accounts|] == accounts;
    if PositiveAfterNegative(accounts) {
      var i, j :| 0 <= i < j < |accounts| && accounts[i].weight < 0 < accounts[j].weight;
      var slot := Total(accounts) - 1;
      forall c | 1 <= c <= |accounts| ensures Cursor(accounts, c) <= slot {
        CursorAtMostTotal(accounts, c);
        TotalGrows(accounts, c, |accounts|);
        if c > i { assert accounts[i].weight < 0; }
      }
      assert FallsThrough(accounts, slot);
    } else {
      var n := LastPositive(accounts);
      CursorIsTotal(accounts, n + 1);
      TotalGrows(accounts, n + 1, |accounts|);
      forall slot: nat | slot < Total(accounts) ensures !FallsThrough(accounts, slot) {
        assert Cursor(accounts, n + 1) > slot;
      }
    }
  }

  lemma {:induction false} LastPositive(accounts: seq<Account>) returns (n: nat)
    requires Total(accounts) > 0 && !PositiveAfterNegative(accounts)
    ensures n < |accounts| && (forall i :: 0 <= i <= n ==> accounts[i].weight >= 0)
    ensures forall j :: n < j < |accounts| ==> accounts[j].weight <= 0
    decreases |accounts|
  {
    var last := |accounts| - 1;
    if accounts[last].weight > 0 {
      n := last;
    } else {
      n := LastPositive(accounts[..last]);
    }
  }

  /** With weights -1 and 5 there are five slots, and nobody owns the last one. */
  lemma NegativeWeightFallsThrough(a: nat, b: nat)
    ensures var accounts := [Account(a, -1), Account(b, 5)]; Total(accounts) == 5 && FallsThrough(accounts, 4)
  {
    var accounts := [Account(a, -1), Account(b, 5)];
    var init := [Account(a, -1)];
    assert accounts[..1] == init && init[..0] == [];
    assert Total(init) == 0;
    assert Cursor(accounts, 0) == 0;
    assert Cursor(accounts, 1) == -1;
    assert Cursor(accounts, 2) == 4;
  }

  // ------------------------------------------------------------------ the candidate list

  function Live(accounts: seq<Account>, open: set<nat>): seq<Account> {
    if accounts == [] then []
    else (if accounts[0].id in open then [] else [accounts[0]]) + Live(accounts[1..], open)
  }

  /** The accounts with a closed circuit, each as often as before. */
  lemma {:induction false} LiveIs(accounts: seq<Account>, open: set<nat>)
    ensures forall a :: a in Live(accounts, open) <==> a in accounts && a.id !in open
    decreases |accounts|
  {
    if accounts != [] {
      LiveIs(accounts[1..], open);
      assert accounts == [accounts[0]] + accounts[1..];
    }
  }

  /** live holds the closed accounts at these positions, which go up and leave none out. */
  ghost predicate IsSelection(accounts: seq<Account>, open: set<nat>, live: seq<Account>, at: seq<nat>) {
    && |at| == |live|
    && (forall k :: 0 <= k < |at| ==> at[k] < |accounts| && accounts[at[k]].id !in open && live[k] == accounts[at[k]])
    && (forall k, l :: 0 <= k < l < |at| ==> at[k] < at[l])
    && (forall i :: 0 <= i < |accounts| && accounts[i].id !in open ==> i in at)
  }

  lemma SelectOneMore(accounts: seq<Account>, open: set<nat>, live: seq<Account>, at: seq<nat>, a: Account)
    requires IsSelection(accounts, open, live, at)
    ensures a.id in open ==> IsSelection(accounts + [a], open, live, at)
    ensures a.id !in open ==> IsSelection(accounts + [a], open, live + [a], at + [|accounts|])
  {
    var more := at + [|accounts|];
    assert more[|at|] == |accounts|;
    forall i | i in at ensures i in more {
      var k :| 0 <= k < |at| && at[k] == i;
      assert more[k] == i;
    }
  }

  /** The live accounts stand in their old order, each as often as before. */
  lemma {:induction false} LiveKeepsOrder(accounts: seq<Account>, open: set<nat>) returns (at: seq<nat>)
    ensures IsSelection(accounts, open, Live(accounts, open), at)
    decreases |accounts|
  {
    at := [];
    if accounts != [] {
      var init, a := accounts[..|accounts| - 1], accounts[|accounts| - 1];
      at := LiveKeepsOrder(init, open);
      LiveAppend(init, a, open);
      SelectOneMore(init, open, Live(init, open), at, a);
      assert accounts == init + [a];
      if a.id !in open { at := at + [|init|]; }
    }
  }

  lemma {:induction false} LiveAppend(accounts: seq<Account>, a: Account, open: set<nat>)
    ensures Live(accounts + [a], open) == Live(accounts, open) + if a.id in open then [] else [a]
    decreases |accounts|
  {
    if accounts == [] {
      assert accounts + [a] == [a] && [a][1..] == [];
    } else {
      assert (accounts + [a])[0] == accounts[0] && (accounts + [a])[1..] == accounts[1..] + [a];
      LiveAppend(accounts[1..], a, open);
    }
  }

  /** The spec is supported and one of its accounts has a closed circuit. */
  predicate Usable(spec: Spec, open: set<nat>) { spec.supported && Live(spec.accounts, open) != [] }

  lemma UsableIff(spec: Spec, open: set<nat>)
    ensures Usable(spec, open) <==> spec.supported && exists a :: a in spec.accounts && a.id !in open
  {
    LiveIs(spec.accounts, open);
    if Live(spec.accounts, open) != [] {
      var a := Live(spec.accounts, open)[0];
      assert a in Live(spec.accounts, open);
    }
  }

  /** What a call of the router depends on besides its specs. */
  datatype Routing = Routing(open: set<nat>, digest: nat, failover: bool)

  /** The candidate of a usable spec is the weighted choice among its live accounts. */
  ghost predicate IsChoice(spec: Spec, routing: Routing, account: nat) {
    var live := Live(spec.accounts, routing.open);
    exists i :: 0 <= i < |live| && Chosen(live, routing.digest, routing.failover, i) && live[i].id == account
  }

  ghost predicate IsCandidate(specs: seq<Spec>, routing: Routing, c: Candidate) {
    c.spec < |specs| && Usable(specs[c.spec], routing.open) && IsChoice(specs[c.spec], routing, c.account)
  }

  ghost predicate Covers(cs: seq<Candidate>, spec: nat) { exists k :: 0 <= k < |cs| && cs[k].spec == spec }

  /** One candidate for each usable spec among the first n, in routing order. */
  ghost predicate IsCandidateList(specs: seq<Spec>, routing: Routing, n: nat, cs: seq<Candidate>)
    requires n <= |specs|
  {
    && (forall k :: 0 <= k < |cs| ==> cs[k].spec < n && IsCandidate(specs, routing, cs[k]))
    && (forall k, l :: 0 <= k < l < |cs| ==> cs[k].spec < cs[l].spec)
    && (forall i :: 0 <= i < n && Usable(specs[i], routing.open) ==> Covers(cs, i))
  }

  lemma SkippedSpec(specs: seq<Spec>, routing: Routing, n: nat, cs: seq<Candidate>)
    requires n < |specs| && IsCandidateList(specs, routing, n, cs) && !Usable(specs[n], routing.open)
    ensures IsCandidateList(specs, routing, n + 1, cs)
  {
  }

  lemma OneMoreCandidate(specs: seq<Spec>, routing: Routing, n: nat, cs: seq<Candidate>, c: Candidate)
    requires n < |specs| && IsCandidateList(specs, routing, n, cs) && c.spec == n && IsCandidate(specs, routing, c)
    ensures IsCandidateList(specs, routing, n + 1, cs + [c])
  {
    var more := cs + [c];
    forall i | 0 <= i < n + 1 && Usable(specs[i], routing.open) ensures Covers(more, i) {
      if i < n {
        var k :| 0 <= k < |cs| && cs[k].spec == i;
        assert more[k].spec == i;
      } else {
        assert more[|cs|].spec == n;
      }
    }
  }

  lemma FirstUsable(specs: seq<Spec>, routing: Routing, cs: seq<Candidate>)
    requires IsCandidateList(specs, routing, |specs|, cs) && cs != []
    ensures IsCandidate(specs, routing, cs[0])
    ensures forall i :: 0 <= i < cs[0].spec ==> !Usable(specs[i], routing.open)
  {
    forall i | 0 <= i < cs[0].spec ensures !Usable(specs[i], routing.open) {
      assert forall k :: 0 <= k < |cs| ==> cs[0].spec <= cs[k].spec;
    }
  }

  lemma NoneUsable(specs: seq<Spec>, routing: Routing, cs: seq<Candidate>)
    requires IsCandidateList(specs, routing, |specs|, cs)
    ensures cs == [] <==> forall i :: 0 <= i < |specs| ==> !Usable(specs[i], routing.open)
  {
    if cs == [] {
      forall i | 0 <= i < |specs| ensures !Usable(specs[i], routing.open) { assert !Covers(cs, i); }
    } else {
      assert IsCandidate(specs, routing, cs[0]);
    }
  }

  /** The loop over the routing's specs. */
  method CollectCandidates(specs: seq<Spec>, routing: Routing) returns (cs: seq<Candidate>)
    ensures IsCandidateList(specs, routing, |specs|, cs)
  {
    cs := [];
    for n := 0 to |specs|
      invariant IsCandidateList(specs, routing, n, cs)
    {
      var live := Live(specs[n].accounts, routing.open);
      if !specs[n].supported || live == [] {
        SkippedSpec(specs, routing, n, cs);
        continue;
      }
      var i := SelectAccount(live, routing.digest, routing.failover);
      var c := Candidate(n, live[i].id);
      assert IsChoice(specs[n], routing, c.account);
      OneMoreCandidate(specs, routing, n, cs, c);
      cs := cs + [c];
    }
  }

  /** Open accounts never block another one: the call fails iff no spec is usable. Without fallback only the
      first candidate is kept. */
  method OrderedCandidates(specs: seq<Spec>, routing: Routing, allowFallback: bool) returns (r: Result<seq<Candidate>>)
    ensures r.NoProviderAvailable? <==> forall i :: 0 <= i < |specs| ==> !Usable(specs[i], routing.open)
    ensures r.Ok? && allowFallback ==> IsCandidateList(specs, routing, |specs|, r.value)
    ensures r.Ok? && !allowFallback ==>
      && |r.value| == 1 && IsCandidate(specs, routing, r.value[0])
      && forall i :: 0 <= i < r.value[0].spec ==> !Usable(specs[i], routing.open)
  {
    var cs := CollectCandidates(specs, routing);
    NoneUsable(specs, routing, cs);
    if cs == [] { return NoProviderAvailable; }
    FirstUsable(specs, routing, cs);
    r := Ok(if allowFallback then cs else cs[..1]);
  }

  /** No candidate is on an open account. */
  lemma CandidateIsLive(specs: seq<Spec>, routing: Routing, c: Candidate)
    requires IsCandidate(specs, routing, c)
    ensures c.account !in routing.open && exists a :: a in specs[c.spec].accounts && a.id == c.account
  {
    var live := Live(specs[c.spec].accounts, routing.open);
    var i :| 0 <= i < |live| && Chosen(live, routing.digest, routing.failover, i) && live[i].id == c.account;
    LiveIs(specs[c.spec].accounts, routing.open);
    assert live[i] in live;
  }
}
