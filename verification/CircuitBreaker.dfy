/** The per-account circuit breaker kept in expiring Redis keys (app/providers/circuit_breaker.py),
    proved to agree at every moment with a definition over the whole history of calls.

    Each call is atomic, and the Redis server and the caller share one clock. */
module CircuitBreaker {
  import opened Basics

  datatype ProviderAccount = OpenAIPrimary | OpenAISecondary | GeminiPrimary | Mock | Replay

  datatype Key = FailureKey(account: ProviderAccount) | OpenKey(account: ProviderAccount)

  /** A key is visible strictly before its deadline. */
  datatype Entry = Counter(failures: nat, expiresAt: real) | OpenUntil(stamp: real, expiresAt: real)

  datatype Event = Event(account: ProviderAccount, at: real, succeeded: bool)

  // ------------------------------------------------------------------ the history definition

  function EventsOf(h: seq<Event>, a: ProviderAccount): seq<Event> {
    if h == [] then []
    else
      var before := EventsOf(h[..|h| - 1], a);
      if h[|h| - 1].account == a then before + [h[|h| - 1]] else before
  }

  /** The last k events are failures, each less than `gap` after the one before, and the last of
      them less than `gap` before t. */
  ghost predicate IsStreak(f: seq<Event>, k: nat, t: real, gap: real) {
    && k <= |f|
    && (forall i :: |f| - k <= i < |f| ==> !f[i].succeeded)
    && (forall i :: |f| - k <= i < |f| - 1 ==> f[i + 1].at < f[i].at + gap)
    && (k > 0 ==> t < f[|f| - 1].at + gap)
  }

  /** The length of the failure streak that is alive at t. */
  function Streak(f: seq<Event>, t: real, gap: real): nat {
    if f == [] then 0
    else
      var last := f[|f| - 1];
      if last.succeeded || t >= last.at + gap then 0 else 1 + Streak(f[..|f| - 1], last.at, gap)
  }

  lemma {:induction false} StreakIsLongest(f: seq<Event>, k: nat, t: real, gap: real)
    ensures IsStreak(f, k, t, gap) <==> k <= Streak(f, t, gap)
    decreases |f|
  {
    if f != [] && k > 0 {
      var init, last := f[..|f| - 1], f[|f| - 1];
      if !last.succeeded && t < last.at + gap {
        StreakIsLongest(init, k - 1, last.at, gap);
        if IsStreak(init, k - 1, last.at, gap) {
          forall i | |f| - k <= i < |f| - 1 ensures f[i + 1].at < f[i].at + gap {
            if i < |f| - 2 { assert init[i + 1].at < init[i].at + gap; }
          }
          assert forall i :: |f| - k <= i < |f| - 1 ==> f[i] == init[i];
        }
        if IsStreak(f, k, t, gap) {
          forall i | |init| - (k - 1) <= i < |init| - 1 ensures init[i + 1].at < init[i].at + gap {
            assert f[i + 1].at < f[i].at + gap;
          }
          assert k > 1 ==> f[|f| - 2 + 1].at < f[|f| - 2].at + gap;
        }
      }
    }
  }

  /** Failure i brought its streak to the threshold, and no success has come since. */
  ghost predicate TrippedBy(f: seq<Event>, i: int, threshold: int, gap: real) {
    && 0 <= i < |f|
    && !f[i].succeeded
    && Streak(f[..i + 1], f[i].at, gap) >= threshold
    && forall j :: i < j < |f| ==> !f[j].succeeded
  }

  ghost predicate OpenByHistory(f: seq<Event>, t: real, threshold: int, cooldown: real) {
    exists i :: TrippedBy(f, i, threshold, 2.0 * cooldown) && t < f[i].at + cooldown
  }

  // ------------------------------------------------------------------ the keys of one account

  ghost predicate InOrder(h: seq<Event>) {
    forall i, j :: 0 <= i < j < |h| ==> h[i].at <= h[j].at
  }

  lemma {:induction false} EventsOfInOrder(h: seq<Event>, a: ProviderAccount)
    requires InOrder(h)
    ensures InOrder(EventsOf(h, a))
    ensures forall e :: e in EventsOf(h, a) ==> e in h && e.account == a
    decreases |h|
  {
    if h != [] {
      EventsOfInOrder(h[..|h| - 1], a);
      assert forall e :: e in h[..|h| - 1] ==> e.at <= h[|h| - 1].at;
    }
  }

  lemma InOrderSnoc(h: seq<Event>, e: Event)
    requires InOrder(h) && forall x :: x in h ==> x.at <= e.at
    ensures InOrder(h + [e])
  {
  }

  lemma EventsOfSnoc(h: seq<Event>, e: Event, a: ProviderAccount)
    ensures EventsOf(h + [e], a) == if e.account == a then EventsOf(h, a) + [e] else EventsOf(h, a)
  {
    assert (h + [e])[..|h|] == h;
  }

  /** What the failure key holds after these events. */
  function CounterAfter(f: seq<Event>, cooldown: real): Option<Entry> {
    if f == [] || f[|f| - 1].succeeded then None
    else Some(Counter(Streak(f, f[|f| - 1].at, 2.0 * cooldown), f[|f| - 1].at + 2.0 * cooldown))
  }

  /** What the open key holds after these events: the stamp of the last tripping failure since the
      last success. */
  function OpenAfter(f: seq<Event>, threshold: int, cooldown: real): Option<Entry> {
    if f == [] || f[|f| - 1].succeeded then None
    else
      var last := f[|f| - 1];
      if Streak(f, last.at, 2.0 * cooldown) >= threshold then Some(OpenUntil(last.at + cooldown, last.at + cooldown))
      else OpenAfter(f[..|f| - 1], threshold, cooldown)
  }

  predicate SaysOpen(key: Option<Entry>, t: real) { key.Some? && key.value.OpenUntil? && t < key.value.stamp }

  /** One more failure: it trips the threshold and moves the deadline on, or changes nothing. */
  lemma FailureAgrees(f: seq<Event>, e: Event, t: real, threshold: int, cooldown: real)
    requires !e.succeeded && cooldown > 0.0 && InOrder(f + [e])
    requires OpenByHistory(f, t, threshold, cooldown) <==> SaysOpen(OpenAfter(f, threshold, cooldown), t)
    ensures OpenByHistory(f + [e], t, threshold, cooldown) <==> SaysOpen(OpenAfter(f + [e], threshold, cooldown), t)
  {
    var g := f + [e];
    FailureExtends(f, e, threshold, 2.0 * cooldown);
    assert g[..|g| - 1] == f && g[|f|] == e;
    if Streak(g, e.at, 2.0 * cooldown) >= threshold {
      assert TrippedBy(g, |f|, threshold, 2.0 * cooldown);
      assert forall i :: 0 <= i < |f| ==> g[i].at <= e.at;
    } else if i :| TrippedBy(f, i, threshold, 2.0 * cooldown) && t < f[i].at + cooldown {
      assert TrippedBy(g, i, threshold, 2.0 * cooldown) && g[i] == f[i];
    }
  }

  /** The open key says open exactly when the history does. */
  lemma {:induction false} OpenAfterMeansOpenByHistory(f: seq<Event>, t: real, threshold: int, cooldown: real)
    requires cooldown > 0.0 && InOrder(f)
    ensures OpenByHistory(f, t, threshold, cooldown) <==> SaysOpen(OpenAfter(f, threshold, cooldown), t)
    decreases |f|
  {
    if f != [] {
      var init, last := f[..|f| - 1], f[|f| - 1];
      assert f == init + [last];
      OpenAfterMeansOpenByHistory(init, t, threshold, cooldown);
      if last.succeeded { SuccessResets(init, last, threshold, 2.0 * cooldown); }
      else { FailureAgrees(init, last, t, threshold, cooldown); }
    }
  }

  lemma {:induction false} OpenDeadline(f: seq<Event>, threshold: int, cooldown: real)
    ensures var key := OpenAfter(f, threshold, cooldown); key.Some? ==> key.value.OpenUntil? && key.value.stamp == key.value.expiresAt
    decreases |f|
  {
    if f != [] { OpenDeadline(f[..|f| - 1], threshold, cooldown); }
  }

  function Lookup(store: map<Key, Entry>, k: Key): Option<Entry> {
    if k in store then Some(store[k]) else None
  }

  ghost predicate KeysOk(store: map<Key, Entry>, f: seq<Event>, a: ProviderAccount, threshold: int, cooldown: real) {
    && Lookup(store, FailureKey(a)) == CounterAfter(f, cooldown)
    && Lookup(store, OpenKey(a)) == OpenAfter(f, threshold, cooldown)
  }

  /** One more success ends every streak and closes the breaker. */
  lemma SuccessResets(f: seq<Event>, e: Event, threshold: int, gap: real)
    requires e.succeeded
    ensures forall i :: !TrippedBy(f + [e], i, threshold, gap)
  {
    assert (f + [e])[|f|] == e;
  }

  /** One more failure leaves earlier trips standing and may add its own. */
  lemma FailureExtends(f: seq<Event>, e: Event, threshold: int, gap: real)
    requires !e.succeeded && gap > 0.0
    ensures Streak(f + [e], e.at, gap) == 1 + Streak(f, e.at, gap)
    ensures forall i :: 0 <= i < |f| ==> (TrippedBy(f + [e], i, threshold, gap) <==> TrippedBy(f, i, threshold, gap))
    ensures TrippedBy(f + [e], |f|, threshold, gap) <==> Streak(f + [e], e.at, gap) >= threshold
  {
    var g := f + [e];
    assert g[..|g| - 1] == f && g[..|f| + 1] == g;
    forall i | 0 <= i < |f|
      ensures TrippedBy(g, i, threshold, gap) <==> TrippedBy(f, i, threshold, gap)
    {
      assert g[..i + 1] == f[..i + 1];
      assert forall j :: i < j < |f| ==> g[j] == f[j];
    }
  }

  ghost predicate AllKeysOk(store: map<Key, Entry>, h: seq<Event>, threshold: int, cooldown: real) {
    forall a :: KeysOk(store, EventsOf(h, a), a, threshold, cooldown)
  }

  function StoreAfterSuccess(store: map<Key, Entry>, a: ProviderAccount): map<Key, Entry> {
    store - {FailureKey(a), OpenKey(a)}
  }

  function StoreAfterFailure(store: map<Key, Entry>, a: ProviderAccount, failures: nat, at: real, threshold: int, cooldown: real): map<Key, Entry> {
    var counted := store[FailureKey(a) := Counter(failures, at + 2.0 * cooldown)];
    if failures >= threshold then counted[OpenKey(a) := OpenUntil(at + cooldown, at + cooldown)] else counted
  }

  lemma SuccessKeepsKeys(store: map<Key, Entry>, h: seq<Event>, e: Event, threshold: int, cooldown: real)
    requires e.succeeded && AllKeysOk(store, h, threshold, cooldown)
    ensures AllKeysOk(StoreAfterSuccess(store, e.account), h + [e], threshold, cooldown)
  {
    forall b ensures KeysOk(StoreAfterSuccess(store, e.account), EventsOf(h + [e], b), b, threshold, cooldown) {
      EventsOfSnoc(h, e, b);
      assert KeysOk(store, EventsOf(h, b), b, threshold, cooldown);
    }
  }

  lemma FailureStep(f: seq<Event>, e: Event, threshold: int, cooldown: real)
    requires !e.succeeded && cooldown > 0.0
    ensures var failures := Streak(f, e.at, 2.0 * cooldown) + 1;
      && CounterAfter(f + [e], cooldown) == Some(Counter(failures, e.at + 2.0 * cooldown))
      && OpenAfter(f + [e], threshold, cooldown) ==
           if failures >= threshold then Some(OpenUntil(e.at + cooldown, e.at + cooldown))
           else OpenAfter(f, threshold, cooldown)
  {
    FailureExtends(f, e, threshold, 2.0 * cooldown);
    assert (f + [e])[..|f|] == f;
  }

  lemma OwnFailureKeys(store: map<Key, Entry>, f: seq<Event>, e: Event, threshold: int, cooldown: real)
    requires !e.succeeded && cooldown > 0.0 && KeysOk(store, f, e.account, threshold, cooldown)
    ensures var failures := Streak(f, e.at, 2.0 * cooldown) + 1;
      KeysOk(StoreAfterFailure(store, e.account, failures, e.at, threshold, cooldown), f + [e], e.account, threshold, cooldown)
  {
    FailureStep(f, e, threshold, cooldown);
  }

  lemma OtherFailureKeys(store: map<Key, Entry>, f: seq<Event>, b: ProviderAccount, e: Event, failures: nat, threshold: int, cooldown: real)
    requires b != e.account && KeysOk(store, f, b, threshold, cooldown)
    ensures KeysOk(StoreAfterFailure(store, e.account, failures, e.at, threshold, cooldown), f, b, threshold, cooldown)
  {
    var after := StoreAfterFailure(store, e.account, failures, e.at, threshold, cooldown);
    assert Lookup(after, FailureKey(b)) == Lookup(store, FailureKey(b));
    assert Lookup(after, OpenKey(b)) == Lookup(store, OpenKey(b));
  }

  lemma FailureKeepsKeys(store: map<Key, Entry>, h: seq<Event>, e: Event, failures: nat, threshold: int, cooldown: real)
    requires !e.succeeded && cooldown > 0.0 && AllKeysOk(store, h, threshold, cooldown)
    requires failures == Streak(EventsOf(h, e.account), e.at, 2.0 * cooldown) + 1
    ensures AllKeysOk(StoreAfterFailure(store, e.account, failures, e.at, threshold, cooldown), h + [e], threshold, cooldown)
  {
    var after := StoreAfterFailure(store, e.account, failures, e.at, threshold, cooldown);
    forall b ensures KeysOk(after, EventsOf(h + [e], b), b, threshold, cooldown) {
      EventsOfSnoc(h, e, b);
      assert KeysOk(store, EventsOf(h, b), b, threshold, cooldown);
      if b == e.account { OwnFailureKeys(store, EventsOf(h, b), e, threshold, cooldown); }
      else { OtherFailureKeys(store, EventsOf(h, b), b, e, failures, threshold, cooldown); }
    }
  }

  // ------------------------------------------------------------------ the breaker

  class ProviderCircuitBreaker {
    const cooldown: real
    const threshold: int
    var store: map<Key, Entry>
    ghost var history: seq<Event>

    ghost predicate Valid()
      reads this
    {
      && cooldown > 0.0 && InOrder(history)
      && AllKeysOk(store, history, threshold, cooldown)
    }

    constructor (cooldownSeconds: int, threshold: int)
      requires cooldownSeconds > 0
      ensures Valid() && history == [] && this.cooldown == cooldownSeconds as real && this.threshold == threshold
    {
      this.cooldown := cooldownSeconds as real;
      this.threshold := threshold;
      store := map[];
      history := [];
    }

    /** Open exactly when the history says so. */
    method IsOpen(a: ProviderAccount, now: real) returns (open: bool)
      requires Valid()
      ensures open <==> OpenByHistory(EventsOf(history, a), now, threshold, cooldown)
    {
      EventsOfInOrder(history, a);
      OpenAfterMeansOpenByHistory(EventsOf(history, a), now, threshold, cooldown);
      OpenDeadline(EventsOf(history, a), threshold, cooldown);
      assert KeysOk(store, EventsOf(history, a), a, threshold, cooldown);
      if OpenKey(a) !in store || store[OpenKey(a)].expiresAt <= now {
        return false;
      }
      return store[OpenKey(a)].stamp > now;
    }

    /** The visible failure count is the length of the streak alive at that moment. */
    method Failures(a: ProviderAccount, now: real) returns (n: nat)
      requires Valid()
      ensures n == Streak(EventsOf(history, a), now, 2.0 * cooldown)
    {
      assert KeysOk(store, EventsOf(history, a), a, threshold, cooldown);
      if FailureKey(a) in store && now < store[FailureKey(a)].expiresAt {
        n := store[FailureKey(a)].failures;
      } else {
        n := 0;
      }
    }

    method RecordSuccess(a: ProviderAccount, now: real)
      requires Valid() && forall e :: e in history ==> e.at <= now
      modifies this
      ensures Valid() && history == old(history) + [Event(a, now, true)]
    {
      SuccessKeepsKeys(store, history, Event(a, now, true), threshold, cooldown);
      InOrderSnoc(history, Event(a, now, true));
      store := store - {FailureKey(a), OpenKey(a)};
      history := history + [Event(a, now, true)];
    }

    method RecordFailure(a: ProviderAccount, now: real)
      requires Valid() && forall e :: e in history ==> e.at <= now
      modifies this
      ensures Valid() && history == old(history) + [Event(a, now, false)]
    {
      var failures := CountFailure(a, now);
      if failures >= threshold {
        var openUntil := now + cooldown;
        store := store[OpenKey(a) := OpenUntil(openUntil, now + cooldown)];
      }
      ghost var e := Event(a, now, false);
      FailureKeepsKeys(old(store), history, e, failures, threshold, cooldown);
      InOrderSnoc(history, e);
      assert store == StoreAfterFailure(old(store), a, failures, now, threshold, cooldown);
      history := history + [e];
    }

    /** INCR followed by EXPIRE. */
    method CountFailure(a: ProviderAccount, now: real) returns (failures: nat)
      requires Valid()
      modifies this
      ensures failures == Streak(EventsOf(history, a), now, 2.0 * cooldown) + 1 && history == old(history)
      ensures store == old(store)[FailureKey(a) := Counter(failures, now + 2.0 * cooldown)]
    {
      failures := Failures(a, now);
      failures := failures + 1;
      store := store[FailureKey(a) := Counter(failures, now + 2.0 * cooldown)];
    }
  }

  // ------------------------------------------------------------------ what the definition implies

  /** An open breaker has seen `threshold` failures in a row, close together, the last of them within
      one cooldown, and no success after them. */
  lemma OpenMeansRecentStreak(f: seq<Event>, t: real, threshold: nat, cooldown: real) returns (i: int)
    requires cooldown > 0.0 && threshold > 0 && OpenByHistory(f, t, threshold, cooldown)
    ensures threshold - 1 <= i < |f| && t < f[i].at + cooldown
    ensures forall j :: i - threshold < j < |f| ==> !f[j].succeeded
    ensures forall j :: i - threshold < j < i ==> f[j + 1].at < f[j].at + 2.0 * cooldown
  {
    i :| TrippedBy(f, i, threshold, 2.0 * cooldown) && t < f[i].at + cooldown;
    var g := f[..i + 1];
    StreakIsLongest(g, threshold, f[i].at, 2.0 * cooldown);
    forall j | i - threshold < j <= i ensures !f[j].succeeded {
      assert !g[j].succeeded;
    }
    forall j | i - threshold < j < i ensures f[j + 1].at < f[j].at + 2.0 * cooldown {
      assert g[j + 1].at < g[j].at + 2.0 * cooldown;
    }
  }

  /** Calls on one account never change another: its streak and its open state stay as they were. */
  lemma OtherAccountsUntouched(h: seq<Event>, e: Event, b: ProviderAccount, t: real, threshold: int, cooldown: real)
    requires e.account != b
    ensures Streak(EventsOf(h + [e], b), t, 2.0 * cooldown) == Streak(EventsOf(h, b), t, 2.0 * cooldown)
    ensures OpenByHistory(EventsOf(h + [e], b), t, threshold, cooldown) == OpenByHistory(EventsOf(h, b), t, threshold, cooldown)
  {
    EventsOfSnoc(h, e, b);
  }

  /** Without a failure in the last cooldown the breaker is closed. */
  lemma ClosedAfterCooldown(f: seq<Event>, t: real, threshold: int, cooldown: real)
    requires forall i :: 0 <= i < |f| && !f[i].succeeded ==> f[i].at + cooldown <= t
    ensures !OpenByHistory(f, t, threshold, cooldown)
  {
  }
}
