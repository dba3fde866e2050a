/** The retry and fallback loop of StructuredGenerationService.generate (app/services/generation.py).
    What a try comes to is chosen by the environment. */
module Generation {

  datatype Candidate = Candidate(account: nat, hasInstance: bool, hasBudget: bool)

  /** What the try block of one attempt comes to, its bookkeeping included: an exception of record_success, of
      the budget or of a flush makes a successful call a failure, with `recorded` if record_success had run. */
  datatype CallOutcome =
    | Success(result: nat)
    | AppFailure(code: nat, retryable: bool, recorded: bool)
    | OtherFailure(recorded: bool)

  /** Try `attempt` on candidate `candidate`. */
  datatype Slot = Slot(candidate: nat, attempt: nat)

  type Provider = Slot -> CallOutcome

  datatype AttemptStatus = Succeeded | Failed

  datatype Attempt = Attempt(number: nat, candidate: nat, status: AttemptStatus)

  datatype BreakerCall = SuccessRecorded(account: nat) | FailureRecorded(account: nat)

  datatype Answer = Returned(result: nat) | AppErrorRaised(code: nat, retryable: bool) | OtherRaised | AllProvidersFailed

  // ------------------------------------------------------------------ the flat view of the two loops

  function TriesPerCandidate(maxRetries: int): nat {
    if maxRetries + 1 > 1 then maxRetries + 1 else 1
  }

  predicate Eligible(c: Candidate) { c.hasInstance && c.hasBudget }

  function TriesOf(c: nat, n: nat): seq<Slot> { seq(n, r requires 0 <= r < n => Slot(c, r)) }

  /** Every try the loops could make over the first `n` candidates, in order. */
  function SlotsTo(cs: seq<Candidate>, n: nat, tries: nat): seq<Slot>
    requires n <= |cs|
  {
    if n == 0 then []
    else SlotsTo(cs, n - 1, tries) + (if Eligible(cs[n - 1]) then TriesOf(n - 1, tries) else [])
  }

  /** The outcome ends the whole call. */
  predicate Ends(o: CallOutcome, allowFallback: bool) {
    match o
    case Success(_) => true
    case AppFailure(_, retryable, _) => !(retryable && allowFallback)
    case OtherFailure(_) => !allowFallback
  }

  /** The tries actually made: up to and including the first that ends the call. */
  function Made(slots: seq<Slot>, provider: Provider, allowFallback: bool): seq<Slot> {
    if slots == [] then []
    else if Ends(provider(slots[0]), allowFallback) then [slots[0]]
    else [slots[0]] + Made(slots[1..], provider, allowFallback)
  }

  function MadeBy(cs: seq<Candidate>, maxRetries: int, provider: Provider, allowFallback: bool): seq<Slot> {
    Made(SlotsTo(cs, |cs|, TriesPerCandidate(maxRetries)), provider, allowFallback)
  }

  function AttemptOf(s: Slot, number: nat, provider: Provider): Attempt {
    Attempt(number, s.candidate, if provider(s).Success? then Succeeded else Failed)
  }

  function LogOf(made: seq<Slot>, base: nat, provider: Provider): seq<Attempt> {
    if made == [] then []
    else LogOf(made[..|made| - 1], base, provider) + [AttemptOf(made[|made| - 1], base + |made|, provider)]
  }

  lemma {:induction false} LogAt(made: seq<Slot>, base: nat, provider: Provider)
    ensures |LogOf(made, base, provider)| == |made|
    ensures forall i :: 0 <= i < |made| ==> LogOf(made, base, provider)[i] == AttemptOf(made[i], base + 1 + i, provider)
    decreases |made|
  {
    if made != [] { LogAt(made[..|made| - 1], base, provider); }
  }

  /** A retryable error that ends the call is not reported to the breaker, an unexpected one is. */
  function BreakerCallsAt(cs: seq<Candidate>, s: Slot, provider: Provider, allowFallback: bool): seq<BreakerCall>
    requires s.candidate < |cs|
  {
    var account := cs[s.candidate].account;
    match provider(s)
    case Success(_) => [SuccessRecorded(account)]
    case AppFailure(_, retryable, recorded) =>
      (if recorded then [SuccessRecorded(account)] else []) + (if retryable && allowFallback then [FailureRecorded(account)] else [])
    case OtherFailure(recorded) => (if recorded then [SuccessRecorded(account)] else []) + [FailureRecorded(account)]
  }

  predicate Within(made: seq<Slot>, n: nat) {
    forall i :: 0 <= i < |made| ==> made[i].candidate < n
  }

  function BreakerCallsOf(cs: seq<Candidate>, made: seq<Slot>, provider: Provider, allowFallback: bool): seq<BreakerCall>
    requires Within(made, |cs|)
  {
    if made == [] then []
    else BreakerCallsOf(cs, made[..|made| - 1], provider, allowFallback)
         + BreakerCallsAt(cs, made[|made| - 1], provider, allowFallback)
  }

  function AnswerOf(made: seq<Slot>, provider: Provider, allowFallback: bool): Answer {
    if made == [] then AllProvidersFailed
    else
      match provider(made[|made| - 1])
      case Success(result) => Returned(result)
      case AppFailure(code, retryable, _) => AppErrorRaised(code, retryable)
      case OtherFailure(_) => if allowFallback then AllProvidersFailed else OtherRaised
  }

  // ------------------------------------------------------------------ the loops

  lemma {:induction false} SlotsToIsPrefix(cs: seq<Candidate>, n: nat, m: nat, tries: nat)
    requires n <= m <= |cs|
    ensures SlotsTo(cs, n, tries) <= SlotsTo(cs, m, tries)
    decreases m
  {
    if n < m { SlotsToIsPrefix(cs, n, m - 1, tries); }
  }

  lemma CurrentIsPrefix(cs: seq<Candidate>, c: nat, r: nat, tries: nat)
    requires c < |cs| && Eligible(cs[c]) && r <= tries
    ensures SlotsTo(cs, c, tries) + TriesOf(c, r) <= SlotsTo(cs, |cs|, tries)
  {
    SlotsToIsPrefix(cs, c + 1, |cs|, tries);
    assert TriesOf(c, r) <= TriesOf(c, tries);
    assert SlotsTo(cs, c + 1, tries) == SlotsTo(cs, c, tries) + TriesOf(c, tries);
  }

  ghost predicate NoneEnds(done: seq<Slot>, provider: Provider, allowFallback: bool) {
    forall i :: 0 <= i < |done| ==> !Ends(provider(done[i]), allowFallback)
  }

  /** What was made is a prefix of the slots that stops at the first ending try. */
  lemma {:induction false} MadeIs(slots: seq<Slot>, done: seq<Slot>, provider: Provider, allowFallback: bool)
    requires done <= slots && NoneEnds(done, provider, allowFallback)
    ensures done == slots ==> Made(slots, provider, allowFallback) == done
    ensures |done| < |slots| ==>
      (Ends(provider(slots[|done|]), allowFallback) ==> Made(slots, provider, allowFallback) == done + [slots[|done|]])
    decreases |done|
  {
    if done != [] {
      assert slots[0] == done[0];
      assert forall i :: 1 <= i < |done| ==> done[i] == done[1..][i - 1];
      MadeIs(slots[1..], done[1..], provider, allowFallback);
    }
  }

  lemma {:induction false} SlotsWithin(cs: seq<Candidate>, n: nat, tries: nat)
    requires n <= |cs|
    ensures Within(SlotsTo(cs, n, tries), n)
    decreases n
  {
    if n > 0 { SlotsWithin(cs, n - 1, tries); }
  }

  lemma LogOneMore(done: seq<Slot>, s: Slot, base: nat, provider: Provider)
    ensures LogOf(done + [s], base, provider) == LogOf(done, base, provider) + [AttemptOf(s, base + |done| + 1, provider)]
  {
    assert (done + [s])[..|done|] == done;
  }

  lemma HeardByBreakerOneMore(cs: seq<Candidate>, done: seq<Slot>, s: Slot, provider: Provider, allowFallback: bool)
    requires Within(done, |cs|) && s.candidate < |cs|
    ensures Within(done + [s], |cs|)
    ensures BreakerCallsOf(cs, done + [s], provider, allowFallback)
            == BreakerCallsOf(cs, done, provider, allowFallback) + BreakerCallsAt(cs, s, provider, allowFallback)
  {
    assert (done + [s])[..|done|] == done;
  }

  lemma OneMoreMade(slots: seq<Slot>, done: seq<Slot>, s: Slot, provider: Provider, allowFallback: bool)
    requires done + [s] <= slots && NoneEnds(done, provider, allowFallback)
    ensures if Ends(provider(s), allowFallback) then Made(slots, provider, allowFallback) == done + [s]
            else NoneEnds(done + [s], provider, allowFallback)
  {
    assert (done + [s])[|done|] == s == slots[|done|];
    MadeIs(slots, done, provider, allowFallback);
  }

  /** The variables of the two loops. */
  datatype Progress = Progress(attemptNumber: nat, log: seq<Attempt>, breaker: seq<BreakerCall>, lastError: CallOutcome)

  /** Where the two loops stand after some tries, none of which ended the call. */
  ghost predicate Standing(cs: seq<Candidate>, done: seq<Slot>, base: nat, provider: Provider, allowFallback: bool, p: Progress) {
    && Within(done, |cs|)
    && NoneEnds(done, provider, allowFallback)
    && p.attemptNumber == base + |done|
    && p.log == LogOf(done, base, provider)
    && p.breaker == BreakerCallsOf(cs, done, provider, allowFallback)
    && p.lastError == if done == [] then OtherFailure(false) else provider(done[|done| - 1])
  }

  /** One turn of the inner loop on the variables. */
  function Advanced(cs: seq<Candidate>, s: Slot, provider: Provider, allowFallback: bool, p: Progress): Progress
    requires s.candidate < |cs|
  {
    Progress(p.attemptNumber + 1, p.log + [AttemptOf(s, p.attemptNumber + 1, provider)],
             p.breaker + BreakerCallsAt(cs, s, provider, allowFallback), provider(s))
  }

  lemma NoneEndsAppend(done: seq<Slot>, s: Slot, provider: Provider, allowFallback: bool)
    requires NoneEnds(done, provider, allowFallback) && !Ends(provider(s), allowFallback)
    ensures NoneEnds(done + [s], provider, allowFallback)
  {
  }

  /** The log and the breaker calls are those of the tries made. */
  ghost predicate Logged(cs: seq<Candidate>, made: seq<Slot>, base: nat, provider: Provider, allowFallback: bool, p: Progress) {
    && Within(made, |cs|)
    && p.log == LogOf(made, base, provider) && p.breaker == BreakerCallsOf(cs, made, provider, allowFallback)
  }

  lemma AdvancedLog(cs: seq<Candidate>, done: seq<Slot>, s: Slot, base: nat, provider: Provider, allowFallback: bool, p: Progress)
    requires s.candidate < |cs| && p.attemptNumber == base + |done| && p.log == LogOf(done, base, provider)
    ensures Advanced(cs, s, provider, allowFallback, p).log == LogOf(done + [s], base, provider)
  {
    LogOneMore(done, s, base, provider);
  }

  lemma AdvancedBreaker(cs: seq<Candidate>, done: seq<Slot>, s: Slot, provider: Provider, allowFallback: bool, p: Progress)
    requires s.candidate < |cs| && Within(done, |cs|) && p.breaker == BreakerCallsOf(cs, done, provider, allowFallback)
    ensures Within(done + [s], |cs|)
    ensures Advanced(cs, s, provider, allowFallback, p).breaker == BreakerCallsOf(cs, done + [s], provider, allowFallback)
  {
    HeardByBreakerOneMore(cs, done, s, provider, allowFallback);
  }

  lemma AdvancedStands(cs: seq<Candidate>, done: seq<Slot>, s: Slot, base: nat, provider: Provider, allowFallback: bool, p: Progress)
    requires s.candidate < |cs| && Standing(cs, done, base, provider, allowFallback, p)
    ensures var q := Advanced(cs, s, provider, allowFallback, p);
      && Logged(cs, done + [s], base, provider, allowFallback, q)
      && (!Ends(provider(s), allowFallback) ==> Standing(cs, done + [s], base, provider, allowFallback, q))
  {
    AdvancedLog(cs, done, s, base, provider, allowFallback, p);
    AdvancedBreaker(cs, done, s, provider, allowFallback, p);
    if !Ends(provider(s), allowFallback) { NoneEndsAppend(done, s, provider, allowFallback); }
    assert (done + [s])[|done + [s]| - 1] == s;
  }

  /** One attempt: its row, what the breaker is told, and whether the call is over. */
  method TryOnce(cs: seq<Candidate>, s: Slot, provider: Provider, allowFallback: bool, p: Progress) returns (q: Progress, over: bool)
    requires s.candidate < |cs|
    ensures q == Advanced(cs, s, provider, allowFallback, p) && over == Ends(provider(s), allowFallback)
  {
    var account := cs[s.candidate].account;
    var number := p.attemptNumber + 1;
    var breaker := p.breaker;
    var outcome := provider(s);
    match outcome {
      case Success(result) =>
        breaker := breaker + [SuccessRecorded(account)];
        over := true;
      case AppFailure(code, retryable, recorded) =>
        if recorded { breaker := breaker + [SuccessRecorded(account)]; }
        over := !(retryable && allowFallback);
        if !over { breaker := breaker + [FailureRecorded(account)]; }
      case OtherFailure(recorded) =>
        if recorded { breaker := breaker + [SuccessRecorded(account)]; }
        breaker := breaker + [FailureRecorded(account)];
        over := !allowFallback;
    }
    q := Progress(number, p.log + [Attempt(number, s.candidate, if outcome.Success? then Succeeded else Failed)], breaker, outcome);
  }

  /** The inner loop: the tries on one candidate. */
  method TryCandidate(cs: seq<Candidate>, c: nat, tries: nat, provider: Provider, allowFallback: bool, p: Progress,
                      ghost done: seq<Slot>, ghost base: nat)
    returns (q: Progress, over: bool, ghost now: seq<Slot>)
    requires c < |cs| && Eligible(cs[c]) && Standing(cs, done, base, provider, allowFallback, p)
    requires done == SlotsTo(cs, c, tries)
    ensures !over ==> now == SlotsTo(cs, c + 1, tries) && Standing(cs, now, base, provider, allowFallback, q)
    ensures over ==> Finished(cs, tries, base, provider, allowFallback, now, q)
  {
    q, over, now := p, false, done;
    assert done + TriesOf(c, 0) == done;
    for r := 0 to tries
      invariant now == done + TriesOf(c, r) && Standing(cs, now, base, provider, allowFallback, q) && !over
    {
      var s := Slot(c, r);
      NextSlot(cs, c, r, tries);
      AdvancedStands(cs, now, s, base, provider, allowFallback, q);
      OneMoreMade(SlotsTo(cs, |cs|, tries), now, s, provider, allowFallback);
      q, over := TryOnce(cs, s, provider, allowFallback, q);
      now := now + [s];
      if over { return; }
    }
  }

  /** The call ended with the last of the tries made, and the variables say so. */
  ghost predicate Finished(cs: seq<Candidate>, tries: nat, base: nat, provider: Provider, allowFallback: bool, made: seq<Slot>, p: Progress) {
    && made != [] && Ends(provider(made[|made| - 1]), allowFallback)
    && made == Made(SlotsTo(cs, |cs|, tries), provider, allowFallback) && Within(made, |cs|)
    && p.log == LogOf(made, base, provider) && p.breaker == BreakerCallsOf(cs, made, provider, allowFallback)
    && p.lastError == provider(made[|made| - 1])
  }

  /** What the variables hold when the loops are left, by an end of the call or because nothing is left to try. */
  ghost predicate IsLeft(cs: seq<Candidate>, made: seq<Slot>, base: nat, provider: Provider, allowFallback: bool, p: Progress, over: bool) {
    && Within(made, |cs|) && p.log == LogOf(made, base, provider) && p.breaker == BreakerCallsOf(cs, made, provider, allowFallback)
    && p.lastError == (if made == [] then OtherFailure(false) else provider(made[|made| - 1]))
    && (over <==> made != [] && Ends(provider(made[|made| - 1]), allowFallback))
  }

  lemma ExhaustedIsLeft(cs: seq<Candidate>, tries: nat, base: nat, provider: Provider, allowFallback: bool, p: Progress)
    requires Standing(cs, SlotsTo(cs, |cs|, tries), base, provider, allowFallback, p)
    ensures IsLeft(cs, Made(SlotsTo(cs, |cs|, tries), provider, allowFallback), base, provider, allowFallback, p, false)
  {
    MadeIs(SlotsTo(cs, |cs|, tries), SlotsTo(cs, |cs|, tries), provider, allowFallback);
  }

  /** The loops over candidates and tries. */
  method RunLoops(cs: seq<Candidate>, tries: nat, allowFallback: bool, base: nat, provider: Provider) returns (p: Progress, over: bool)
    ensures IsLeft(cs, Made(SlotsTo(cs, |cs|, tries), provider, allowFallback), base, provider, allowFallback, p, over)
  {
    ghost var done: seq<Slot> := [];
    p, over := Progress(base, [], [], OtherFailure(false)), false;
    for c := 0 to |cs|
      invariant done == SlotsTo(cs, c, tries) && Standing(cs, done, base, provider, allowFallback, p) && !over
    {
      if !cs[c].hasInstance || !cs[c].hasBudget { continue; }
      p, over, done := TryCandidate(cs, c, tries, provider, allowFallback, p, done, base);
      if over { return; }
    }
    ExhaustedIsLeft(cs, tries, base, provider, allowFallback, p);
  }

  // ------------------------------------------------------------------ what the breaker hears

  /** The calls of one attempt, all on its account: a success is recorded after a success, or before the bookkeeping
      failed; a failure after an unexpected one, or a retryable one with fallback; the success comes first. */
  ghost predicate HeardOf(calls: seq<BreakerCall>, account: nat, o: CallOutcome, allowFallback: bool) {
    && (forall k :: 0 <= k < |calls| ==> calls[k] == SuccessRecorded(account) || calls[k] == FailureRecorded(account))
    && (SuccessRecorded(account) in calls <==> o.Success? || o.recorded)
    && (FailureRecorded(account) in calls <==> o.OtherFailure? || (o.AppFailure? && o.retryable && allowFallback))
    && (o.Success? ==> calls == [SuccessRecorded(account)])
    && |calls| <= 2 && (|calls| == 2 ==> calls == [SuccessRecorded(account), FailureRecorded(account)])
  }

  /** So an attempt's only call is SuccessRecorded when it SUCCEEDED, and otherwise exactly when its bookkeeping
      failed after that call with an application error that ends the whole call. */
  lemma OnlySuccessHeardIff(calls: seq<BreakerCall>, account: nat, o: CallOutcome, allowFallback: bool)
    requires HeardOf(calls, account, o, allowFallback)
    ensures calls == [SuccessRecorded(account)]
            <==> o.Success? || (o.AppFailure? && o.recorded && !(o.retryable && allowFallback))
  {
    if SuccessRecorded(account) in calls && FailureRecorded(account) !in calls {
      assert forall k :: 0 <= k < |calls| ==> calls[k] in calls;
    }
  }

  function Concat(parts: seq<seq<BreakerCall>>): seq<BreakerCall> {
    if parts == [] then [] else Concat(parts[..|parts| - 1]) + parts[|parts| - 1]
  }

  /** The log and the breaker calls, attempt by attempt. */
  ghost predicate Heard(cs: seq<Candidate>, made: seq<Slot>, provider: Provider, allowFallback: bool,
                        log: seq<Attempt>, breaker: seq<BreakerCall>, parts: seq<seq<BreakerCall>>)
    requires Within(made, |cs|)
  {
    && |parts| == |log| == |made| && breaker == Concat(parts)
    && forall i :: 0 <= i < |made| ==> HeardAt(cs, made[i], provider, allowFallback, log[i], parts[i])
  }

  lemma AttemptIsHeard(cs: seq<Candidate>, s: Slot, provider: Provider, allowFallback: bool)
    requires s.candidate < |cs|
    ensures HeardOf(BreakerCallsAt(cs, s, provider, allowFallback), cs[s.candidate].account, provider(s), allowFallback)
  {
  }

  /** One attempt's row and calls fit its outcome. */
  ghost predicate HeardAt(cs: seq<Candidate>, s: Slot, provider: Provider, allowFallback: bool, a: Attempt, calls: seq<BreakerCall>)
    requires s.candidate < |cs|
  {
    && a.candidate == s.candidate && (a.status == Succeeded <==> provider(s).Success?)
    && HeardOf(calls, cs[s.candidate].account, provider(s), allowFallback)
  }

  lemma HeardOneMore(cs: seq<Candidate>, done: seq<Slot>, s: Slot, provider: Provider, allowFallback: bool,
                     log: seq<Attempt>, breaker: seq<BreakerCall>, parts: seq<seq<BreakerCall>>, a: Attempt, calls: seq<BreakerCall>)
    requires Within(done, |cs|) && s.candidate < |cs| && Heard(cs, done, provider, allowFallback, log, breaker, parts)
    requires HeardAt(cs, s, provider, allowFallback, a, calls)
    ensures Within(done + [s], |cs|)
    ensures Heard(cs, done + [s], provider, allowFallback, log + [a], breaker + calls, parts + [calls])
  {
    var made, more := done + [s], parts + [calls];
    assert more[..|parts|] == parts;
    forall i | 0 <= i < |made| ensures HeardAt(cs, made[i], provider, allowFallback, (log + [a])[i], more[i]) {
      if i < |done| { assert HeardAt(cs, done[i], provider, allowFallback, log[i], parts[i]); }
    }
  }

  /** Some division of the breaker calls among the attempts fits the log. */
  ghost predicate HeardAs(cs: seq<Candidate>, made: seq<Slot>, provider: Provider, allowFallback: bool, log: seq<Attempt>, breaker: seq<BreakerCall>)
    requires Within(made, |cs|)
  {
    exists parts :: Heard(cs, made, provider, allowFallback, log, breaker, parts)
  }

  /** The log and the calls made for some tries fit them, attempt by attempt. */
  ghost predicate AreHeard(cs: seq<Candidate>, made: seq<Slot>, base: nat, provider: Provider, allowFallback: bool)
    requires Within(made, |cs|)
  {
    HeardAs(cs, made, provider, allowFallback, LogOf(made, base, provider), BreakerCallsOf(cs, made, provider, allowFallback))
  }

  lemma OneMoreIsHeard(cs: seq<Candidate>, done: seq<Slot>, s: Slot, base: nat, provider: Provider, allowFallback: bool)
    requires Within(done, |cs|) && s.candidate < |cs| && AreHeard(cs, done, base, provider, allowFallback)
    ensures Within(done + [s], |cs|) && AreHeard(cs, done + [s], base, provider, allowFallback)
  {
    var log, breaker := LogOf(done, base, provider), BreakerCallsOf(cs, done, provider, allowFallback);
    var parts :| Heard(cs, done, provider, allowFallback, log, breaker, parts);
    var a, calls := AttemptOf(s, base + |done| + 1, provider), BreakerCallsAt(cs, s, provider, allowFallback);
    AttemptIsHeard(cs, s, provider, allowFallback);
    LogOneMore(done, s, base, provider);
    HeardByBreakerOneMore(cs, done, s, provider, allowFallback);
    HeardOneMore(cs, done, s, provider, allowFallback, log, breaker, parts, a, calls);
  }

  lemma {:induction false} AttemptsAreHeard(cs: seq<Candidate>, made: seq<Slot>, base: nat, provider: Provider, allowFallback: bool)
    requires Within(made, |cs|)
    ensures AreHeard(cs, made, base, provider, allowFallback)
    decreases |made|
  {
    if made == [] {
      assert Heard(cs, made, provider, allowFallback, LogOf(made, base, provider), BreakerCallsOf(cs, made, provider, allowFallback), []);
    } else {
      var init, s := made[..|made| - 1], made[|made| - 1];
      AttemptsAreHeard(cs, init, base, provider, allowFallback);
      OneMoreIsHeard(cs, init, s, base, provider, allowFallback);
      assert made == init + [s];
    }
  }

  /** The breaker calls end with the success of the last attempt when the call returns. */
  lemma ReturnIsHeard(cs: seq<Candidate>, made: seq<Slot>, provider: Provider, allowFallback: bool)
    requires Within(made, |cs|) && made != [] && provider(made[|made| - 1]).Success?
    ensures var breaker := BreakerCallsOf(cs, made, provider, allowFallback);
      breaker != [] && breaker[|breaker| - 1] == SuccessRecorded(cs[made[|made| - 1].candidate].account)
  {
  }

  ghost predicate LastHeard(cs: seq<Candidate>, made: seq<Slot>, breaker: seq<BreakerCall>)
    requires Within(made, |cs|)
  {
    && made != [] && breaker != []
    && breaker[|breaker| - 1] == SuccessRecorded(cs[made[|made| - 1].candidate].account)
  }

  lemma LeftIsHeard(cs: seq<Candidate>, made: seq<Slot>, base: nat, provider: Provider, allowFallback: bool, p: Progress, over: bool)
    requires IsLeft(cs, made, base, provider, allowFallback, p, over)
    ensures HeardAs(cs, made, provider, allowFallback, p.log, p.breaker)
  {
    AttemptsAreHeard(cs, made, base, provider, allowFallback);
  }

  lemma LeftWithSuccess(cs: seq<Candidate>, made: seq<Slot>, base: nat, provider: Provider, allowFallback: bool, p: Progress, over: bool)
    requires IsLeft(cs, made, base, provider, allowFallback, p, over)
    ensures p.lastError.Success? ==> LastHeard(cs, made, p.breaker)
  {
    if p.lastError.Success? { ReturnIsHeard(cs, made, provider, allowFallback); }
  }

  /** The answer after the loops: what was returned or raised in them, or AllProvidersFailed. */
  function AnswerFrom(lastError: CallOutcome, over: bool): Answer {
    match lastError
    case Success(result) => Returned(result)
    case AppFailure(code, retryable, _) => AppErrorRaised(code, retryable)
    case OtherFailure(_) => if over then OtherRaised else AllProvidersFailed
  }

  lemma LeftWithAnswer(cs: seq<Candidate>, made: seq<Slot>, base: nat, provider: Provider, allowFallback: bool, p: Progress, over: bool)
    requires IsLeft(cs, made, base, provider, allowFallback, p, over)
    ensures AnswerFrom(p.lastError, over) == AnswerOf(made, provider, allowFallback)
  {
  }

  /** The call makes exactly the tries of MadeBy. Its log and its breaker calls fit them attempt by attempt, and
      it ends on the success of the account it returns from. */
  method Generate(cs: seq<Candidate>, maxRetries: int, allowFallback: bool, attemptsBefore: nat, provider: Provider)
    returns (answer: Answer, log: seq<Attempt>, breaker: seq<BreakerCall>)
    ensures var made := MadeBy(cs, maxRetries, provider, allowFallback);
      && log == LogOf(made, attemptsBefore, provider)
      && Within(made, |cs|) && breaker == BreakerCallsOf(cs, made, provider, allowFallback)
      && answer == AnswerOf(made, provider, allowFallback)
      && HeardAs(cs, made, provider, allowFallback, log, breaker)
      && (answer.Returned? ==> LastHeard(cs, made, breaker))
  {
    var p, over := RunLoops(cs, TriesPerCandidate(maxRetries), allowFallback, attemptsBefore, provider);
    ghost var made := MadeBy(cs, maxRetries, provider, allowFallback);
    LeftIsHeard(cs, made, attemptsBefore, provider, allowFallback, p, over);
    LeftWithSuccess(cs, made, attemptsBefore, provider, allowFallback, p, over);
    LeftWithAnswer(cs, made, attemptsBefore, provider, allowFallback, p, over);
    answer, log, breaker := AnswerFrom(p.lastError, over), p.log, p.breaker;
  }

  lemma NextSlot(cs: seq<Candidate>, c: nat, r: nat, tries: nat)
    requires c < |cs| && Eligible(cs[c]) && r < tries
    ensures SlotsTo(cs, c, tries) + TriesOf(c, r) + [Slot(c, r)] == SlotsTo(cs, c, tries) + TriesOf(c, r + 1)
    ensures SlotsTo(cs, c, tries) + TriesOf(c, r) + [Slot(c, r)] <= SlotsTo(cs, |cs|, tries)
    ensures Within(SlotsTo(cs, c, tries) + TriesOf(c, r) + [Slot(c, r)], |cs|)
  {
    CurrentIsPrefix(cs, c, r + 1, tries);
    assert TriesOf(c, r + 1) == TriesOf(c, r) + [Slot(c, r)];
    SlotsWithin(cs, c, tries);
  }

  // ------------------------------------------------------------------ what the log looks like

  /** b comes d places after a: on a later candidate, or d tries later on the same one. */
  predicate After(a: Slot, b: Slot, d: int) {
    a.candidate < b.candidate || (a.candidate == b.candidate && b.attempt == a.attempt + d)
  }

  ghost predicate Ordered(slots: seq<Slot>) {
    forall i, j :: 0 <= i < j < |slots| ==> After(slots[i], slots[j], j - i)
  }

  ghost predicate AllEligible(cs: seq<Candidate>, slots: seq<Slot>, tries: nat) {
    forall i :: 0 <= i < |slots| ==>
      slots[i].candidate < |cs| && Eligible(cs[slots[i].candidate]) && slots[i].attempt < tries
  }

  lemma {:induction false} SlotsInOrder(cs: seq<Candidate>, n: nat, tries: nat)
    requires n <= |cs|
    ensures Ordered(SlotsTo(cs, n, tries)) && AllEligible(cs, SlotsTo(cs, n, tries), tries)
    decreases n
  {
    if n > 0 {
      SlotsInOrder(cs, n - 1, tries);
      SlotsWithin(cs, n - 1, tries);
      AppendTries(SlotsTo(cs, n - 1, tries), n - 1, tries);
      assert SlotsTo(cs, n - 1, tries) + [] == SlotsTo(cs, n - 1, tries);
    }
  }

  lemma AppendTries(before: seq<Slot>, c: nat, tries: nat)
    requires Ordered(before) && Within(before, c)
    ensures Ordered(before + TriesOf(c, tries))
  {
    var all := before + TriesOf(c, tries);
    forall i, j | 0 <= i < j < |all| ensures After(all[i], all[j], j - i) {
      if j < |before| {
        assert After(before[i], before[j], j - i);
      }
    }
  }

  lemma {:induction false} MadeIsPrefix(slots: seq<Slot>, provider: Provider, allowFallback: bool)
    ensures Made(slots, provider, allowFallback) <= slots
    ensures var made := Made(slots, provider, allowFallback);
      && (forall i :: 0 <= i < |made| - 1 ==> !Ends(provider(made[i]), allowFallback))
      && (slots != [] ==> made != [])
      && (made != [] && !Ends(provider(made[|made| - 1]), allowFallback) ==> made == slots)
    decreases |slots|
  {
    if slots != [] && !Ends(provider(slots[0]), allowFallback) {
      MadeIsPrefix(slots[1..], provider, allowFallback);
    }
  }

  /** Attempts are numbered consecutively and grouped in candidate order, at most max_retries + 1 of
      them on one candidate, only on candidates with an instance and budget, and all but the last
      are FAILED. */
  lemma LogIsOrdered(cs: seq<Candidate>, maxRetries: int, base: nat, provider: Provider, allowFallback: bool)
    ensures IsAttemptLog(LogOf(MadeBy(cs, maxRetries, provider, allowFallback), base, provider), cs, TriesPerCandidate(maxRetries), base)
  {
    var tries := TriesPerCandidate(maxRetries);
    var slots := SlotsTo(cs, |cs|, tries);
    SlotsInOrder(cs, |cs|, tries);
    MadeIsPrefix(slots, provider, allowFallback);
    OrderedMakesLog(cs, MadeBy(cs, maxRetries, provider, allowFallback), tries, base, provider, allowFallback);
  }

  ghost predicate IsAttemptLog(log: seq<Attempt>, cs: seq<Candidate>, tries: nat, base: nat) {
    && (forall i :: 0 <= i < |log| ==> log[i].number == base + 1 + i)
    && (forall i :: 0 <= i < |log| ==> log[i].candidate < |cs| && Eligible(cs[log[i].candidate]))
    && (forall i :: 0 <= i < |log| - 1 ==> log[i].status == Failed)
    && (forall i, j :: 0 <= i < j < |log| ==> log[i].candidate <= log[j].candidate)
    && (forall i, j :: 0 <= i < j < |log| && log[i].candidate == log[j].candidate ==> j - i < tries)
  }

  lemma OrderedMakesLog(cs: seq<Candidate>, made: seq<Slot>, tries: nat, base: nat, provider: Provider, allowFallback: bool)
    requires Ordered(made) && AllEligible(cs, made, tries)
    requires forall i :: 0 <= i < |made| - 1 ==> !Ends(provider(made[i]), allowFallback)
    ensures IsAttemptLog(LogOf(made, base, provider), cs, tries, base)
  {
    LogAt(made, base, provider);
    var log := LogOf(made, base, provider);
    forall i, j | 0 <= i < j < |log|
      ensures log[i].candidate <= log[j].candidate && (log[i].candidate == log[j].candidate ==> j - i < tries)
    {
      assert After(made[i], made[j], j - i);
    }
  }

  /** The tries are those of every eligible candidate, max(1, max_retries + 1) of each. */
  lemma {:induction false} TriesAreAll(cs: seq<Candidate>, n: nat, maxRetries: int, s: Slot)
    requires n <= |cs|
    ensures s in SlotsTo(cs, n, TriesPerCandidate(maxRetries))
            <==> s.candidate < n && cs[s.candidate].hasInstance && cs[s.candidate].hasBudget
                 && (s.attempt == 0 || s.attempt <= maxRetries)
    decreases n
  {
    if n > 0 {
      TriesAreAll(cs, n - 1, maxRetries, s);
      var tries := TriesOf(n - 1, TriesPerCandidate(maxRetries));
      if s.candidate == n - 1 && s.attempt < |tries| { assert tries[s.attempt] == s; }
    }
  }

  /** The answer is that of the last attempt: its result, its application error, its unexpected one without
      fallback; otherwise that all providers failed. */
  lemma AnswerIsOfLast(cs: seq<Candidate>, maxRetries: int, provider: Provider, allowFallback: bool)
    ensures var made := MadeBy(cs, maxRetries, provider, allowFallback);
      var answer := AnswerOf(made, provider, allowFallback);
      && (forall x :: answer == Returned(x) <==> made != [] && provider(made[|made| - 1]) == Success(x))
      && (forall code, retryable :: answer == AppErrorRaised(code, retryable) <==>
            made != [] && provider(made[|made| - 1]).AppFailure?
            && provider(made[|made| - 1]).code == code && provider(made[|made| - 1]).retryable == retryable)
      && (answer == OtherRaised <==> made != [] && provider(made[|made| - 1]).OtherFailure? && !allowFallback)
  {
  }

  /** The call returns iff its last attempt SUCCEEDED. */
  lemma ReturnsIffLastSucceeded(cs: seq<Candidate>, maxRetries: int, base: nat, provider: Provider, allowFallback: bool)
    ensures var made := MadeBy(cs, maxRetries, provider, allowFallback);
      var log := LogOf(made, base, provider);
      AnswerOf(made, provider, allowFallback).Returned? <==> log != [] && log[|log| - 1].status == Succeeded
  {
    LogAt(MadeBy(cs, maxRetries, provider, allowFallback), base, provider);
  }

  /** A non-retryable application error is the last attempt and is what the caller sees. */
  lemma NonRetryableStops(cs: seq<Candidate>, maxRetries: int, provider: Provider, allowFallback: bool, i: nat)
    requires i < |MadeBy(cs, maxRetries, provider, allowFallback)|
    requires var o := provider(MadeBy(cs, maxRetries, provider, allowFallback)[i]); o.AppFailure? && !o.retryable
    ensures var made := MadeBy(cs, maxRetries, provider, allowFallback);
      i == |made| - 1 && AnswerOf(made, provider, allowFallback) == AppErrorRaised(provider(made[i]).code, false)
  {
    MadeIsPrefix(SlotsTo(cs, |cs|, TriesPerCandidate(maxRetries)), provider, allowFallback);
  }

  /** Without fallback there is at most one attempt. */
  lemma NoFallbackMeansOneAttempt(cs: seq<Candidate>, maxRetries: int, provider: Provider)
    ensures |MadeBy(cs, maxRetries, provider, false)| <= 1
    ensures |MadeBy(cs, maxRetries, provider, false)| == 1 <==> exists c :: 0 <= c < |cs| && Eligible(cs[c])
  {
    var tries := TriesPerCandidate(maxRetries);
    var slots := SlotsTo(cs, |cs|, tries);
    MadeIsPrefix(slots, provider, false);
    SlotsInOrder(cs, |cs|, tries);
    if slots != [] { assert slots[0] in slots; }
    if c :| 0 <= c < |cs| && Eligible(cs[c]) { CurrentIsPrefix(cs, c, tries, tries); }
  }

  /** With fallback the call gives up only after every try on every eligible candidate failed in a
      way that allows another try, and then it has made all of them. */
  lemma GivesUpOnlyWhenExhausted(cs: seq<Candidate>, maxRetries: int, provider: Provider)
    ensures var slots := SlotsTo(cs, |cs|, TriesPerCandidate(maxRetries));
      var answer := AnswerOf(MadeBy(cs, maxRetries, provider, true), provider, true);
      NoneEnds(slots, provider, true)
      <==> MadeBy(cs, maxRetries, provider, true) == slots
           && (answer == AllProvidersFailed || (answer.AppErrorRaised? && answer.retryable))
  {
    var slots := SlotsTo(cs, |cs|, TriesPerCandidate(maxRetries));
    MadeIsPrefix(slots, provider, true);
    if NoneEnds(slots, provider, true) { MadeIs(slots, slots, provider, true); }
  }
}
