/** The rows of the durable outbox table and the effect of each committed statement on one row
    (app/models/ai_job.py, app/services/outbox_dispatcher.py). */
module OutboxRows {

  import opened Basics

  datatype EventType = ProcessAiJob | DeliverResultWebhook

  datatype DispatchStatus = Pending | Dispatching | Dispatched

  /** `updatedAt` is the time of the last committed change of the row. */
  datatype Row = Row(
    job: nat,
    eventType: EventType,
    status: DispatchStatus,
    attemptCount: nat,
    createdAt: nat,
    availableAt: nat,
    lockedAt: Option<nat>,
    dispatchedAt: Option<nat>,
    lastError: Option<string>,
    updatedAt: nat)

  datatype Settings = Settings(batchSize: nat, lockTimeout: nat, retryMax: nat) {
    /** The bounds declared in app/core/config.py. */
    predicate Valid() {
      && 1 <= batchSize <= 200
      && 10 <= lockTimeout <= 3600
      && 1 <= retryMax <= 3600
    }
  }

  function NewRow(job: nat, eventType: EventType, now: nat): Row {
    Row(job, eventType, Pending, 0, now, now, None, None, None, now)
  }

  function Pow2(n: nat): nat { if n == 0 then 1 else 2 * Pow2(n - 1) }

  /** min(2 ** min(n, 16), cap) */
  function RetryDelay(attempts: nat, cap: nat): nat {
    Min(Pow2(Min(attempts, 16)), cap)
  }

  predicate IsStale(r: Row, now: nat, lockTimeout: nat) {
    r.status == Dispatching && r.lockedAt.Some? && r.lockedAt.value + lockTimeout < now
  }

  predicate IsAvailable(r: Row, now: nat) {
    r.status == Pending && r.availableAt <= now
  }

  function RecoveredRow(r: Row, now: nat, lockTimeout: nat): Row {
    if IsStale(r, now, lockTimeout) then r.(status := Pending, lockedAt := None, updatedAt := now) else r
  }

  function ClaimedRow(r: Row, now: nat): Row {
    r.(status := Dispatching, lockedAt := Some(now), attemptCount := r.attemptCount + 1, updatedAt := now)
  }

  function MarkedRow(r: Row, now: nat): Row {
    r.(status := Dispatched, dispatchedAt := Some(now), lockedAt := None, lastError := None, updatedAt := now)
  }

  /** The first 200 characters of the name of an exception's class. */
  function ErrorText(name: string): string { if |name| <= 200 then name else name[..200] }

  /** There is no status guard: a DISPATCHED row released late becomes PENDING again. */
  function ReleasedRow(r: Row, now: nat, retryMax: nat, error: string): Row {
    r.(status := Pending, availableAt := now + RetryDelay(r.attemptCount, retryMax), lockedAt := None,
       lastError := Some(ErrorText(error)), updatedAt := now)
  }

  function RecoveredRows(rows: seq<Row>, now: nat, lockTimeout: nat): (r: seq<Row>)
    ensures |r| == |rows|
  {
    seq(|rows|, i requires 0 <= i < |rows| => RecoveredRow(rows[i], now, lockTimeout))
  }

  function StaleIds(rows: seq<Row>, now: nat, lockTimeout: nat): set<nat> {
    set i | 0 <= i < |rows| && IsStale(rows[i], now, lockTimeout)
  }

  function CountStale(rows: seq<Row>, now: nat, lockTimeout: nat): nat {
    if rows == [] then 0
    else CountStale(rows[..|rows| - 1], now, lockTimeout)
         + (if IsStale(rows[|rows| - 1], now, lockTimeout) then 1 else 0)
  }

  lemma {:induction false} CountStaleIs(rows: seq<Row>, now: nat, lockTimeout: nat)
    ensures CountStale(rows, now, lockTimeout) == |StaleIds(rows, now, lockTimeout)|
  {
    if rows != [] {
      var n := |rows| - 1;
      CountStaleIs(rows[..n], now, lockTimeout);
      var before := StaleIds(rows[..n], now, lockTimeout);
      assert n !in before;
      assert StaleIds(rows, now, lockTimeout) == before + if IsStale(rows[n], now, lockTimeout) then {n} else {};
    }
  }

  /** The claim query: available PENDING rows not locked by another transaction, oldest first
      (rows are stored in creation order), at most `limit` of them. */
  function ClaimQuery(rows: seq<Row>, now: nat, limit: nat, skipped: set<nat>, start: nat := 0): seq<nat>
    requires start <= |rows|
    decreases |rows| - start
  {
    if start == |rows| || limit == 0 then []
    else if IsAvailable(rows[start], now) && start !in skipped then
      [start] + ClaimQuery(rows, now, limit - 1, skipped, start + 1)
    else
      ClaimQuery(rows, now, limit, skipped, start + 1)
  }

  function ClaimedRows(rows: seq<Row>, ids: seq<nat>, now: nat): (r: seq<Row>)
    ensures |r| == |rows|
  {
    seq(|rows|, i requires 0 <= i < |rows| => if i in ids then ClaimedRow(rows[i], now) else rows[i])
  }

  // ------------------------------------------------------------------ the retry delay

  lemma {:induction false} Pow2Monotone(a: nat, b: nat)
    requires a <= b
    ensures 1 <= Pow2(a) <= Pow2(b)
    decreases a + b
  {
    if b > 0 {
      if a < b { Pow2Monotone(a, b - 1); } else { Pow2Monotone(a - 1, b - 1); }
    }
  }

  /** The delay stays within [1, cap], never shrinks as attempts accumulate, doubles until it meets
      the cap, and is constant from the sixteenth attempt on. */
  lemma RetryDelayBounds(n: nat, m: nat, cap: nat)
    requires 1 <= cap && n <= m
    ensures 1 <= RetryDelay(n, cap) <= RetryDelay(m, cap) <= cap
    ensures n < 16 ==> RetryDelay(n + 1, cap) == Min(2 * RetryDelay(n, cap), cap)
    ensures 16 <= n ==> RetryDelay(n, cap) == RetryDelay(m, cap)
  {
    Pow2Monotone(Min(n, 16), Min(m, 16));
  }

  /** The first powers, and the one the exponent is cut at. */
  lemma Pow2Values()
    ensures Pow2(0) == 1 && Pow2(1) == 2 && Pow2(2) == 4 && Pow2(3) == 8 && Pow2(16) == 65536
    ensures forall n: nat :: Pow2(n + 1) == 2 * Pow2(n)
  {
    assert Pow2(4) == 16 && Pow2(8) == 256 && Pow2(12) == 4096;
  }

  // ------------------------------------------------------------------ what the statements do to a row

  /** The row waits for its next attempt: PENDING, unlocked, not before now + min(2 ** min(attempts, 16), cap),
      with the name of the error, and nothing else changed but the time of change. */
  ghost predicate PutBack(before: Row, after: Row, now: nat, cap: nat, error: string) {
    && after.status == Pending && after.lockedAt == None
    && after.availableAt == now + Min(Pow2(Min(before.attemptCount, 16)), cap)
    && after.lastError == Some(if |error| <= 200 then error else error[..200])
    && after.attemptCount == before.attemptCount && after.dispatchedAt == before.dispatchedAt
    && SameEvent(before, after)
  }

  predicate SameEvent(before: Row, after: Row) {
    before.job == after.job && before.eventType == after.eventType && before.createdAt == after.createdAt
  }

  lemma ReleasedRowIs(r: Row, now: nat, cap: nat, error: string)
    ensures PutBack(r, ReleasedRow(r, now, cap, error), now, cap, error)
  {
  }

  /** The row has been handed over: DISPATCHED at this time, unlocked, without an error. */
  ghost predicate HandedOverAt(before: Row, after: Row, now: nat) {
    && after.status == Dispatched && after.lockedAt == None && after.dispatchedAt == Some(now) && after.lastError == None
    && after.attemptCount == before.attemptCount && after.availableAt == before.availableAt && SameEvent(before, after)
  }

  lemma MarkedRowIs(r: Row, now: nat)
    ensures HandedOverAt(r, MarkedRow(r, now), now)
  {
  }

  /** The row is locked for one more attempt. */
  ghost predicate LockedForAttempt(before: Row, after: Row, now: nat) {
    && after.status == Dispatching && after.lockedAt == Some(now) && after.attemptCount == before.attemptCount + 1
    && after.availableAt == before.availableAt && after.dispatchedAt == before.dispatchedAt
    && after.lastError == before.lastError && SameEvent(before, after)
  }

  lemma ClaimedRowIs(r: Row, now: nat)
    ensures LockedForAttempt(r, ClaimedRow(r, now), now)
  {
  }

  /** Exactly a DISPATCHING row locked for longer than the timeout loses its lock, and only that. */
  ghost predicate RecoveredIs(before: Row, after: Row, now: nat, lockTimeout: nat) {
    if before.status == Dispatching && before.lockedAt.Some? && before.lockedAt.value + lockTimeout < now then
      && after.status == Pending && after.lockedAt == None && after.attemptCount == before.attemptCount
      && after.availableAt == before.availableAt && after.dispatchedAt == before.dispatchedAt
      && after.lastError == before.lastError && SameEvent(before, after)
    else after == before
  }

  lemma RecoveredRowIs(r: Row, now: nat, lockTimeout: nat)
    ensures RecoveredIs(r, RecoveredRow(r, now, lockTimeout), now, lockTimeout)
  {
  }

  // ------------------------------------------------------------------ the claim query

  predicate Claimable(rows: seq<Row>, now: nat, skipped: set<nat>, i: nat) {
    i < |rows| && IsAvailable(rows[i], now) && i !in skipped
  }

  function CountClaimable(rows: seq<Row>, now: nat, skipped: set<nat>, start: nat := 0): nat
    requires start <= |rows|
    decreases |rows| - start
  {
    if start == |rows| then 0
    else (if Claimable(rows, now, skipped, start) then 1 else 0) + CountClaimable(rows, now, skipped, start + 1)
  }

  lemma {:induction false} ClaimSize(rows: seq<Row>, now: nat, limit: nat, skipped: set<nat>, start: nat)
    requires start <= |rows|
    ensures |ClaimQuery(rows, now, limit, skipped, start)| == Min(limit, CountClaimable(rows, now, skipped, start))
    decreases |rows| - start
  {
    if start < |rows| && limit > 0 {
      ClaimSize(rows, now, if Claimable(rows, now, skipped, start) then limit - 1 else limit, skipped, start + 1);
    }
  }

  ghost predicate AllClaimable(rows: seq<Row>, now: nat, skipped: set<nat>, start: nat, ids: seq<nat>) {
    forall k :: 0 <= k < |ids| ==> start <= ids[k] && Claimable(rows, now, skipped, ids[k])
  }

  ghost predicate Increasing(ids: seq<nat>) { forall k, l :: 0 <= k < l < |ids| ==> ids[k] < ids[l] }

  lemma {:induction false} ClaimIsInOrder(rows: seq<Row>, now: nat, limit: nat, skipped: set<nat>, start: nat)
    requires start <= |rows|
    ensures AllClaimable(rows, now, skipped, start, ClaimQuery(rows, now, limit, skipped, start))
    ensures Increasing(ClaimQuery(rows, now, limit, skipped, start))
    decreases |rows| - start
  {
    if start < |rows| && limit > 0 {
      ClaimIsInOrder(rows, now, if Claimable(rows, now, skipped, start) then limit - 1 else limit, skipped, start + 1);
    }
  }

  /** A claimable row that a query leaves out comes after every row it returns. */
  lemma {:induction false} LeftOutIsYounger(rows: seq<Row>, now: nat, limit: nat, skipped: set<nat>, start: nat, i: nat, k: nat)
    requires start <= i && start <= |rows| && Claimable(rows, now, skipped, i)
    requires i !in ClaimQuery(rows, now, limit, skipped, start) && k < |ClaimQuery(rows, now, limit, skipped, start)|
    ensures ClaimQuery(rows, now, limit, skipped, start)[k] < i
    decreases |rows| - start
  {
    var ids := ClaimQuery(rows, now, limit, skipped, start);
    if Claimable(rows, now, skipped, start) {
      var rest := ClaimQuery(rows, now, limit - 1, skipped, start + 1);
      assert ids == [start] + rest && ids[0] == start;
      if k > 0 { LeftOutIsYounger(rows, now, limit - 1, skipped, start + 1, i, k - 1); }
    } else {
      LeftOutIsYounger(rows, now, limit, skipped, start + 1, i, k);
    }
  }

  ghost predicate OldestFirst(rows: seq<Row>, now: nat, skipped: set<nat>, start: nat, ids: seq<nat>) {
    forall i, k :: start <= i && Claimable(rows, now, skipped, i) && i !in ids && 0 <= k < |ids| ==> ids[k] < i
  }

  /** The query returns claimable rows in creation order, min(limit, number of claimable rows) of
      them, and every claimable row it leaves out comes after all of those it returns. */
  lemma ClaimQueryTakesOldest(rows: seq<Row>, now: nat, limit: nat, skipped: set<nat>, start: nat)
    requires start <= |rows|
    ensures var ids := ClaimQuery(rows, now, limit, skipped, start);
      && |ids| == Min(limit, CountClaimable(rows, now, skipped, start))
      && AllClaimable(rows, now, skipped, start, ids) && Increasing(ids) && OldestFirst(rows, now, skipped, start, ids)
  {
    var ids := ClaimQuery(rows, now, limit, skipped, start);
    ClaimSize(rows, now, limit, skipped, start);
    ClaimIsInOrder(rows, now, limit, skipped, start);
    forall i, k | start <= i && Claimable(rows, now, skipped, i) && i !in ids && 0 <= k < |ids| ensures ids[k] < i {
      LeftOutIsYounger(rows, now, limit, skipped, start, i, k);
    }
  }

  /** A claimed row is PENDING and its time has come; a row without a claim that is both, and that no other
      transaction holds, was passed over for older ones. */
  lemma ClaimedWereDue(rows: seq<Row>, now: nat, limit: nat, skipped: set<nat>, i: nat)
    requires i < |rows|
    ensures i in ClaimQuery(rows, now, limit, skipped, 0) ==>
      rows[i].status == Pending && rows[i].availableAt <= now && i !in skipped
    ensures i !in ClaimQuery(rows, now, limit, skipped, 0) && rows[i].status == Pending && rows[i].availableAt <= now && i !in skipped ==>
      forall k :: 0 <= k < |ClaimQuery(rows, now, limit, skipped, 0)| ==> ClaimQuery(rows, now, limit, skipped, 0)[k] < i
  {
    ClaimQueryTakesOldest(rows, now, limit, skipped, 0);
    var ids := ClaimQuery(rows, now, limit, skipped, 0);
    if i in ids {
      var k :| 0 <= k < |ids| && ids[k] == i;
      assert Claimable(rows, now, skipped, ids[k]);
    } else {
      assert rows[i].status == Pending && rows[i].availableAt <= now && i !in skipped ==> Claimable(rows, now, skipped, i);
    }
  }
}
