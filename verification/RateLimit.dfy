/** The fixed-window limiter kept in expiring Redis counters (app/core/rate_limit.py). The Redis server
    and the caller share one clock, and a call is atomic. */
module RateLimit {

  datatype Request = Request(key: string, at: real, admitted: bool)

  /** The counter "ai:ratelimit:{key}:{window}". */
  datatype CounterKey = CounterKey(key: string, window: int)

  datatype Counter = Counter(value: nat, expiresAt: real)

  function Window(at: real, seconds: int): int
    requires seconds > 0
  {
    at.Floor / seconds
  }

  /** The requests of `key` in `window`. */
  function CountIn(h: seq<Request>, key: string, window: int, seconds: int): nat
    requires seconds > 0
  {
    if h == [] then 0
    else
      var last := h[|h| - 1];
      CountIn(h[..|h| - 1], key, window, seconds)
      + (if last.key == key && Window(last.at, seconds) == window then 1 else 0)
  }

  lemma WindowBounds(at: real, seconds: int)
    requires seconds > 0
    ensures (Window(at, seconds) * seconds) as real <= at < (Window(at, seconds) * seconds + seconds) as real
  {
    var q := Window(at, seconds);
    assert q * seconds <= at.Floor < q * seconds + seconds;
  }

  /** Every answer in the history is the limiter's. */
  ghost predicate IsLimited(h: seq<Request>, limit: int, seconds: int)
    requires seconds > 0
  {
    forall i :: 0 <= i < |h| ==>
      (h[i].admitted <==> CountIn(h[..i], h[i].key, Window(h[i].at, seconds), seconds) < limit)
  }

  lemma LimitedSnoc(g: seq<Request>, r: Request, limit: int, seconds: int)
    requires seconds > 0 && IsLimited(g, limit, seconds)
    requires r.admitted <==> CountIn(g, r.key, Window(r.at, seconds), seconds) < limit
    ensures IsLimited(g + [r], limit, seconds)
  {
    var h := g + [r];
    forall i | 0 <= i < |h|
      ensures h[i].admitted <==> CountIn(h[..i], h[i].key, Window(h[i].at, seconds), seconds) < limit
    {
      if i < |g| { assert h[..i] == g[..i]; } else { assert h[..i] == g; }
    }
  }

  // ------------------------------------------------------------------ the counters

  /** The first moment after a window. */
  function EndOf(window: int, seconds: int): real { (window * seconds + seconds) as real }

  lemma WindowEnds(at: real, seconds: int)
    requires seconds > 0
    ensures at < EndOf(Window(at, seconds), seconds) <= at + seconds as real
  {
    WindowBounds(at, seconds);
  }

  /** A counter holds the number of requests of its window and outlives the window. */
  ghost predicate CounterOk(counters: map<CounterKey, Counter>, h: seq<Request>, k: CounterKey, seconds: int)
    requires seconds > 0
  {
    && (k in counters <==> CountIn(h, k.key, k.window, seconds) > 0)
    && (k in counters ==>
          counters[k].value == CountIn(h, k.key, k.window, seconds) && counters[k].expiresAt >= EndOf(k.window, seconds))
  }

  /** INCR of a missing or expired key starts at 1; EXPIRE only then. */
  function Counted(counters: map<CounterKey, Counter>, k: CounterKey, now: real, seconds: int): Counter {
    if k in counters && now < counters[k].expiresAt && counters[k].value > 0 then
      Counter(counters[k].value + 1, counters[k].expiresAt)
    else Counter(1, now + seconds as real)
  }

  lemma CountOneMore(h: seq<Request>, r: Request, key: string, window: int, seconds: int)
    requires seconds > 0
    ensures CountIn(h + [r], key, window, seconds)
            == CountIn(h, key, window, seconds) + (if r.key == key && Window(r.at, seconds) == window then 1 else 0)
  {
    assert (h + [r])[..|h|] == h;
  }

  /** The request's own counter: it is never found expired. */
  lemma OwnCounter(counters: map<CounterKey, Counter>, h: seq<Request>, r: Request, k: CounterKey, seconds: int)
    requires seconds > 0 && k == CounterKey(r.key, Window(r.at, seconds)) && CounterOk(counters, h, k, seconds)
    ensures CounterOk(counters[k := Counted(counters, k, r.at, seconds)], h + [r], k, seconds)
    ensures Counted(counters, k, r.at, seconds).value == CountIn(h, r.key, k.window, seconds) + 1
  {
    WindowEnds(r.at, seconds);
    CountOneMore(h, r, k.key, k.window, seconds);
  }

  lemma OtherCounter(counters: map<CounterKey, Counter>, h: seq<Request>, r: Request, k: CounterKey, c: Counter, j: CounterKey, seconds: int)
    requires seconds > 0 && k == CounterKey(r.key, Window(r.at, seconds)) && j != k && CounterOk(counters, h, j, seconds)
    ensures CounterOk(counters[k := c], h + [r], j, seconds)
  {
    CountOneMore(h, r, j.key, j.window, seconds);
  }

  ghost predicate CountersOk(counters: map<CounterKey, Counter>, h: seq<Request>, seconds: int)
    requires seconds > 0
  {
    forall k :: CounterOk(counters, h, k, seconds)
  }

  lemma OneMoreRequest(counters: map<CounterKey, Counter>, h: seq<Request>, r: Request, seconds: int)
    requires seconds > 0 && CountersOk(counters, h, seconds)
    ensures var k := CounterKey(r.key, Window(r.at, seconds));
      var c := Counted(counters, k, r.at, seconds);
      CountersOk(counters[k := c], h + [r], seconds) && c.value == CountIn(h, r.key, k.window, seconds) + 1
  {
    var k := CounterKey(r.key, Window(r.at, seconds));
    var c := Counted(counters, k, r.at, seconds);
    assert CounterOk(counters, h, k, seconds);
    OwnCounter(counters, h, r, k, seconds);
    var after, longer := counters[k := c], h + [r];
    forall j ensures CounterOk(after, longer, j, seconds) {
      assert CounterOk(counters, h, j, seconds);
      if j != k { OtherCounter(counters, h, r, k, c, j, seconds); }
    }
  }

  // ------------------------------------------------------------------ the limiter

  class RateLimiter {
    const limit: int
    const seconds: int
    var counters: map<CounterKey, Counter>
    ghost var history: seq<Request>

    ghost predicate Valid()
      reads this
    {
      && seconds > 0 && CountersOk(counters, history, seconds)
      && (limit > 0 ==> IsLimited(history, limit, seconds))
    }

    constructor (limit: int, seconds: int)
      requires seconds > 0
      ensures Valid() && history == [] && this.limit == limit && this.seconds == seconds
    {
      this.limit := limit;
      this.seconds := seconds;
      counters := map[];
      history := [];
    }

    /** A request passes exactly when fewer than `limit` requests of its key came before it in its
        window, admitted or not. A limit of zero or less switches the limiter off. */
    method Enforce(key: string, now: real) returns (admitted: bool)
      requires Valid()
      modifies this
      ensures Valid()
      ensures limit <= 0 ==> admitted && unchanged(this)
      ensures limit > 0 ==> history == old(history) + [Request(key, now, admitted)]
      ensures limit > 0 ==> (admitted <==> CountIn(old(history), key, Window(now, seconds), seconds) < limit)
    {
      if limit <= 0 { return true; }
      var k := CounterKey(key, Window(now, seconds));
      var current := Counted(counters, k, now, seconds);
      admitted := current.value <= limit;
      ghost var r := Request(key, now, admitted);
      OneMoreRequest(counters, history, r, seconds);
      LimitedSnoc(history, r, limit, seconds);
      counters := counters[k := current];
      history := history + [r];
    }
  }

  // ------------------------------------------------------------------ what a history of answers admits

  function AdmittedIn(h: seq<Request>, key: string, window: int, seconds: int): nat
    requires seconds > 0
  {
    if h == [] then 0
    else
      var last := h[|h| - 1];
      AdmittedIn(h[..|h| - 1], key, window, seconds)
      + (if last.key == key && Window(last.at, seconds) == window && last.admitted then 1 else 0)
  }

  function AdmittedBetween(h: seq<Request>, key: string, lo: real, hi: real): nat {
    if h == [] then 0
    else
      var last := h[|h| - 1];
      AdmittedBetween(h[..|h| - 1], key, lo, hi)
      + (if last.key == key && lo <= last.at < hi && last.admitted then 1 else 0)
  }

  lemma LimitedPrefix(h: seq<Request>, limit: int, seconds: int)
    requires seconds > 0 && h != [] && IsLimited(h, limit, seconds)
    ensures IsLimited(h[..|h| - 1], limit, seconds)
  {
    var g := h[..|h| - 1];
    forall i | 0 <= i < |g|
      ensures g[i].admitted <==> CountIn(g[..i], g[i].key, Window(g[i].at, seconds), seconds) < limit
    {
      assert g[..i] == h[..i];
    }
  }

  lemma {:induction false} LimitedWindow(h: seq<Request>, key: string, window: int, limit: int, seconds: int)
    requires seconds > 0 && limit > 0 && IsLimited(h, limit, seconds)
    ensures var n := CountIn(h, key, window, seconds);
      AdmittedIn(h, key, window, seconds) == if n < limit then n else limit
    decreases |h|
  {
    if h != [] {
      LimitedPrefix(h, limit, seconds);
      LimitedWindow(h[..|h| - 1], key, window, limit, seconds);
    }
  }

  lemma {:induction false} Scaled(p: int, q: int, n: int)
    requires n > 0 && p < q
    ensures p * n + n <= q * n
    decreases q - p
  {
    if p + 1 < q { Scaled(p, q - 1, n); }
    assert q * n == (q - 1) * n + n;
  }

  /** An interval of window length meets at most two windows. */
  lemma TwoWindows(lo: real, at: real, seconds: int)
    requires seconds > 0 && lo <= at < lo + seconds as real
    ensures Window(at, seconds) == Window(lo, seconds) || Window(at, seconds) == Window(lo, seconds) + 1
  {
    var p, q := Window(lo, seconds), Window(at, seconds);
    WindowBounds(lo, seconds);
    WindowBounds(at, seconds);
    if q < p { Scaled(q, p, seconds); }
    if p + 1 < q { Scaled(p + 1, q, seconds); }
    assert (p + 1) * seconds == p * seconds + seconds;
  }

  lemma {:induction false} BetweenIsCovered(h: seq<Request>, key: string, lo: real, seconds: int)
    requires seconds > 0
    ensures AdmittedBetween(h, key, lo, lo + seconds as real)
            <= AdmittedIn(h, key, Window(lo, seconds), seconds) + AdmittedIn(h, key, Window(lo, seconds) + 1, seconds)
    decreases |h|
  {
    if h != [] {
      BetweenIsCovered(h[..|h| - 1], key, lo, seconds);
      var last := h[|h| - 1];
      if lo <= last.at < lo + seconds as real { TwoWindows(lo, last.at, seconds); }
    }
  }

  lemma LimitedInterval(h: seq<Request>, key: string, lo: real, limit: int, seconds: int)
    requires seconds > 0 && limit > 0 && IsLimited(h, limit, seconds)
    ensures AdmittedBetween(h, key, lo, lo + seconds as real) <= 2 * limit
  {
    BetweenIsCovered(h, key, lo, seconds);
    LimitedWindow(h, key, Window(lo, seconds), limit, seconds);
    LimitedWindow(h, key, Window(lo, seconds) + 1, limit, seconds);
  }

  /** Whatever was asked of a limiter, exactly the first `limit` requests of a key in a window passed. */
  lemma WindowAdmitsFirst(l: RateLimiter, key: string, window: int)
    requires l.Valid() && l.limit > 0
    ensures var n := CountIn(l.history, key, window, l.seconds);
      AdmittedIn(l.history, key, window, l.seconds) == if n < l.limit then n else l.limit
  {
    LimitedWindow(l.history, key, window, l.limit, l.seconds);
  }

  /** And any interval of window length admitted at most 2 * limit requests of one key. */
  lemma IntervalAdmitsAtMostTwice(l: RateLimiter, key: string, lo: real)
    requires l.Valid() && l.limit > 0
    ensures AdmittedBetween(l.history, key, lo, lo + l.seconds as real) <= 2 * l.limit
  {
    LimitedInterval(l.history, key, lo, l.limit, l.seconds);
  }

  // ------------------------------------------------------------------ the bound is met

  /** n requests half a second before the end of window 0, then m at the start of window 1. */
  function Burst(n: nat, m: nat, seconds: int): seq<Request> {
    if m > 0 then Burst(n, m - 1, seconds) + [Request("k", seconds as real, true)]
    else if n > 0 then Burst(n - 1, 0, seconds) + [Request("k", seconds as real - 0.5, true)]
    else []
  }

  lemma CountSnoc(g: seq<Request>, r: Request, key: string, window: int, seconds: int, lo: real)
    requires seconds > 0
    ensures CountIn(g + [r], key, window, seconds)
            == CountIn(g, key, window, seconds) + (if r.key == key && Window(r.at, seconds) == window then 1 else 0)
    ensures AdmittedBetween(g + [r], key, lo, lo + seconds as real)
            == AdmittedBetween(g, key, lo, lo + seconds as real)
               + (if r.key == key && lo <= r.at < lo + seconds as real && r.admitted then 1 else 0)
  {
    CountOneMore(g, r, key, window, seconds);
    assert (g + [r])[..|g|] == g;
  }

  lemma BurstWindows(seconds: int)
    requires seconds > 0
    ensures Window(seconds as real - 0.5, seconds) == 0 && Window(seconds as real, seconds) == 1
  {
    assert (seconds as real - 0.5).Floor == seconds - 1;
  }

  /** n admitted requests in window 0 and m in window 1, all within one window length from `lo`. */
  ghost predicate IsBurst(h: seq<Request>, n: nat, m: nat, limit: int, seconds: int, lo: real)
    requires seconds > 0
  {
    && IsLimited(h, limit, seconds)
    && CountIn(h, "k", 0, seconds) == n && CountIn(h, "k", 1, seconds) == m
    && AdmittedBetween(h, "k", lo, lo + seconds as real) == n + m
  }

  lemma BurstGrows(g: seq<Request>, n: nat, m: nat, at: real, limit: int, seconds: int, lo: real)
    requires seconds > 0 && IsBurst(g, n, m, limit, seconds, lo) && lo <= at < lo + seconds as real
    ensures Window(at, seconds) == 0 && n < limit ==> IsBurst(g + [Request("k", at, true)], n + 1, m, limit, seconds, lo)
    ensures Window(at, seconds) == 1 && m < limit ==> IsBurst(g + [Request("k", at, true)], n, m + 1, limit, seconds, lo)
  {
    var r := Request("k", at, true);
    if (Window(at, seconds) == 0 && n < limit) || (Window(at, seconds) == 1 && m < limit) {
      LimitedSnoc(g, r, limit, seconds);
      CountSnoc(g, r, "k", 0, seconds, lo);
      CountSnoc(g, r, "k", 1, seconds, lo);
    }
  }

  lemma {:induction false} EarlyBurst(n: nat, limit: int, seconds: int)
    requires seconds > 0 && n <= limit
    ensures IsBurst(Burst(n, 0, seconds), n, 0, limit, seconds, seconds as real - 0.5)
  {
    if n > 0 {
      BurstWindows(seconds);
      EarlyBurst(n - 1, limit, seconds);
      BurstGrows(Burst(n - 1, 0, seconds), n - 1, 0, seconds as real - 0.5, limit, seconds, seconds as real - 0.5);
    }
  }

  lemma {:induction false} BurstIsLimited(m: nat, limit: nat, seconds: int)
    requires seconds > 0 && m <= limit
    ensures IsBurst(Burst(limit, m, seconds), limit, m, limit, seconds, seconds as real - 0.5)
  {
    if m == 0 {
      EarlyBurst(limit, limit, seconds);
    } else {
      BurstWindows(seconds);
      BurstIsLimited(m - 1, limit, seconds);
      BurstGrows(Burst(limit, m - 1, seconds), limit, m - 1, seconds as real, limit, seconds, seconds as real - 0.5);
    }
  }

  /** The factor two is not slack: a burst across the boundary of two windows reaches it. */
  lemma IntervalBoundIsReached(limit: int, seconds: int) returns (h: seq<Request>, lo: real)
    requires seconds > 0 && limit > 0
    ensures IsLimited(h, limit, seconds) && AdmittedBetween(h, "k", lo, lo + seconds as real) == 2 * limit
  {
    h, lo := Burst(limit, limit, seconds), seconds as real - 0.5;
    BurstIsLimited(limit, limit, seconds);
  }
}
