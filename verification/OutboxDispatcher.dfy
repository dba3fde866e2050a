/** The dispatcher object of app/services/outbox_dispatcher.py over an in-memory table, each method
    proved against a function on rows, and the drain rate of repeated dispatch rounds. */
module OutboxDispatcher {
  import opened Basics
  import opened OutboxRows

  // ------------------------------------------------------------------ one dispatch round on values

  /** What publishing an event comes to: Unhandled is an exception that the loop does not catch. */
  datatype Publication = Accepted | Refused(error: string) | Unhandled

  /** The surroundings of one round: the clock at each of its statements, the rows that other
      transactions hold, and what each publication comes to (accepted where nothing is said). */
  datatype Round = Round(
    recoverAt: nat, claimAt: nat, settledAt: map<nat, nat>, skipped: set<nat>, publications: map<nat, Publication>)
  {
    function PublicationOf(id: nat): Publication { if id in publications then publications[id] else Accepted }

    function TimeOf(id: nat): nat { if id in settledAt then settledAt[id] else claimAt }
  }

  datatype Outcome = Delivered(count: nat) | Aborted

  /** One claimed row after its turn in the publishing loop: released if the broker refused it,
      DISPATCHED if it is a process event, still locked if it is a result webhook. */
  function SettledRow(r: Row, id: nat, round: Round, retryMax: nat): Row {
    match round.PublicationOf(id)
    case Accepted => if r.eventType == ProcessAiJob then MarkedRow(r, round.TimeOf(id)) else r
    case Refused(error) => ReleasedRow(r, round.TimeOf(id), retryMax, error)
    case Unhandled => r
  }

  function SettledRows(rows: seq<Row>, ids: seq<nat>, round: Round, retryMax: nat): (r: seq<Row>)
    ensures |r| == |rows|
  {
    if ids == [] then rows
    else
      var before, id := SettledRows(rows, ids[..|ids| - 1], round, retryMax), ids[|ids| - 1];
      if id < |before| then before[id := SettledRow(before[id], id, round, retryMax)] else before
  }

  /** Each event is settled once, and no other row is touched. */
  lemma {:induction false} SettledAt(rows: seq<Row>, ids: seq<nat>, round: Round, retryMax: nat, i: nat)
    requires Increasing(ids) && i < |rows|
    ensures SettledRows(rows, ids, round, retryMax)[i] == if i in ids then SettledRow(rows[i], i, round, retryMax) else rows[i]
    decreases |ids|
  {
    if ids != [] {
      var init, last := ids[..|ids| - 1], ids[|ids| - 1];
      SettledAt(rows, init, round, retryMax, i);
      assert ids == init + [last] && last !in init;
    }
  }

  function PublishedIds(ids: seq<nat>, round: Round): seq<nat> {
    if ids == [] then []
    else PublishedIds(ids[..|ids| - 1], round) + (if round.PublicationOf(ids[|ids| - 1]).Accepted? then [ids[|ids| - 1]] else [])
  }

  /** The events whose turn ends: all of them, or those before the first unhandled exception. */
  function Handled(ids: seq<nat>, round: Round): seq<nat> {
    if ids == [] || round.PublicationOf(ids[0]).Unhandled? then [] else [ids[0]] + Handled(ids[1..], round)
  }

  lemma {:induction false} HandledIs(ids: seq<nat>, round: Round, k: nat)
    requires k <= |ids| && forall i :: 0 <= i < k ==> !round.PublicationOf(ids[i]).Unhandled?
    ensures k == |ids| || round.PublicationOf(ids[k]).Unhandled? ==> Handled(ids, round) == ids[..k]
    decreases k
  {
    if k > 0 {
      HandledIs(ids[1..], round, k - 1);
      assert ids[..k] == [ids[0]] + ids[1..][..k - 1];
    }
  }

  /** One more turn of the publishing loop. */
  lemma SettleOneMore(rows: seq<Row>, events: seq<nat>, k: nat, round: Round, retryMax: nat)
    requires k < |events| && events[k] < |rows|
    ensures var before, id := SettledRows(rows, events[..k], round, retryMax), events[k];
      && SettledRows(rows, events[..k + 1], round, retryMax) == before[id := SettledRow(before[id], id, round, retryMax)]
    ensures PublishedIds(events[..k + 1], round)
            == PublishedIds(events[..k], round) + (if round.PublicationOf(events[k]).Accepted? then [events[k]] else [])
  {
    assert events[..k + 1][..k] == events[..k];
  }

  function RoundIds(rows: seq<Row>, round: Round, settings: Settings): seq<nat> {
    ClaimQuery(RecoveredRows(rows, round.recoverAt, settings.lockTimeout), round.claimAt, settings.batchSize, round.skipped, 0)
  }

  function RoundRows(rows: seq<Row>, round: Round, settings: Settings): (r: seq<Row>)
    ensures |r| == |rows|
  {
    var ids := RoundIds(rows, round, settings);
    var claimed := ClaimedRows(RecoveredRows(rows, round.recoverAt, settings.lockTimeout), ids, round.claimAt);
    SettledRows(claimed, Handled(ids, round), round, settings.retryMax)
  }

  // ------------------------------------------------------------------ what a round leaves of each row

  /** A claimed event whose turn came: put back by a refusal, handed over if it is an accepted process event,
      locked still if it is an accepted webhook; without a turn it is locked too. */
  ghost predicate ClaimedLeftBy(before: Row, after: Row, i: nat, turn: bool, round: Round, settings: Settings) {
    var at, attempts := round.TimeOf(i), before.attemptCount + 1;
    && after.attemptCount == attempts && SameEvent(before, after)
    && if turn && round.PublicationOf(i).Refused? then
         var error := round.PublicationOf(i).error;
         && after.status == Pending && after.lockedAt == None && after.dispatchedAt == before.dispatchedAt
         && after.availableAt == at + Min(Pow2(Min(attempts, 16)), settings.retryMax)
         && after.lastError == Some(if |error| <= 200 then error else error[..200])
       else if turn && round.PublicationOf(i).Accepted? && before.eventType == ProcessAiJob then
         && after.status == Dispatched && after.lockedAt == None && after.dispatchedAt == Some(at)
         && after.lastError == None && after.availableAt == before.availableAt
       else
         && after.status == Dispatching && after.lockedAt == Some(round.claimAt) && after.dispatchedAt == before.dispatchedAt
         && after.lastError == before.lastError && after.availableAt == before.availableAt
  }

  /** A row the round did not claim can only have lost a stale lock. */
  ghost predicate LeftBy(before: Row, after: Row, i: nat, ids: seq<nat>, round: Round, settings: Settings) {
    if i in ids then ClaimedLeftBy(before, after, i, i in Handled(ids, round), round, settings)
    else RecoveredIs(before, after, round.recoverAt, settings.lockTimeout)
  }

  lemma {:induction false} HandledIn(ids: seq<nat>, round: Round)
    ensures Handled(ids, round) <= ids
    ensures Increasing(ids) ==> Increasing(Handled(ids, round))
  {
    if ids != [] && !round.PublicationOf(ids[0]).Unhandled? { HandledIn(ids[1..], round); }
  }

  lemma SettledRowLeaves(before: Row, i: nat, round: Round, settings: Settings)
    requires !round.PublicationOf(i).Unhandled?
    ensures ClaimedLeftBy(before, SettledRow(ClaimedRow(RecoveredRow(before, round.recoverAt, settings.lockTimeout), round.claimAt), i, round, settings.retryMax), i, true, round, settings)
  {
  }

  lemma {:induction false} HandledAreHandled(ids: seq<nat>, round: Round, i: nat)
    requires i in Handled(ids, round)
    ensures !round.PublicationOf(i).Unhandled?
  {
    if i != ids[0] { HandledAreHandled(ids[1..], round, i); }
  }

  /** What one round leaves of each row, field by field. */
  lemma RoundLeavesRow(rows: seq<Row>, round: Round, settings: Settings, i: nat)
    requires i < |rows|
    ensures LeftBy(rows[i], RoundRows(rows, round, settings)[i], i, RoundIds(rows, round, settings), round, settings)
  {
    var recovered := RecoveredRows(rows, round.recoverAt, settings.lockTimeout);
    var ids := RoundIds(rows, round, settings);
    ClaimIsInOrder(recovered, round.claimAt, settings.batchSize, round.skipped, 0);
    HandledIn(ids, round);
    SettledAt(ClaimedRows(recovered, ids, round.claimAt), Handled(ids, round), round, settings.retryMax, i);
    RecoveredRowIs(rows[i], round.recoverAt, settings.lockTimeout);
    if i in Handled(ids, round) {
      HandledAreHandled(ids, round, i);
      SettledRowLeaves(rows[i], i, round, settings);
    }
  }

  /** No row becomes DISPATCHED unless it is a process event that this round claimed and the broker accepted. */
  lemma OnlyAcceptedIsDispatched(rows: seq<Row>, round: Round, settings: Settings, i: nat)
    requires i < |rows| && rows[i].status != Dispatched && RoundRows(rows, round, settings)[i].status == Dispatched
    ensures i in RoundIds(rows, round, settings) && round.PublicationOf(i).Accepted? && rows[i].eventType == ProcessAiJob
  {
    RoundLeavesRow(rows, round, settings, i);
  }

  // ------------------------------------------------------------------ the object

  class Dispatcher {
    const settings: Settings
    var rows: seq<Row>

    constructor (settings: Settings, rows: seq<Row>)
      ensures this.settings == settings && this.rows == rows
    {
      this.settings := settings;
      this.rows := rows;
    }

    /** Afterwards no lock is stale; every row that was not stale is as it was, and a stale one lost its
        lock and nothing else. The answer counts them. */
    method RecoverStaleLocks(now: nat) returns (recovered: nat)
      modifies this
      ensures rows == RecoveredRows(old(rows), now, settings.lockTimeout)
      ensures recovered == |StaleIds(old(rows), now, settings.lockTimeout)|
      ensures StaleIds(rows, now, settings.lockTimeout) == {}
      ensures forall i :: 0 <= i < |rows| ==>
        if i in StaleIds(old(rows), now, settings.lockTimeout) then
          rows[i].status == Pending && rows[i].lockedAt == None && rows[i].attemptCount == old(rows)[i].attemptCount
          && rows[i].availableAt == old(rows)[i].availableAt
        else rows[i] == old(rows)[i]
    {
      CountStaleIs(rows, now, settings.lockTimeout);
      recovered := CountStale(rows, now, settings.lockTimeout);
      rows := RecoveredRows(rows, now, settings.lockTimeout);
    }

    method ClaimPending(now: nat, skipped: set<nat>) returns (events: seq<nat>)
      modifies this
      ensures events == ClaimQuery(old(rows), now, settings.batchSize, skipped, 0)
      ensures rows == ClaimedRows(old(rows), events, now)
    {
      events := ClaimQuery(rows, now, settings.batchSize, skipped, 0);
      ClaimIsInOrder(rows, now, settings.batchSize, skipped, 0);
      for k := 0 to |events|
        invariant rows == ClaimedRows(old(rows), events[..k], now)
      {
        var i := events[k];
        assert i !in events[..k];
        rows := rows[i := ClaimedRow(rows[i], now)];
        assert events[..k + 1] == events[..k] + [i];
      }
      assert events[..|events|] == events;
    }

    method MarkDispatched(id: nat, now: nat)
      modifies this
      ensures rows == if id < |old(rows)| then old(rows)[id := MarkedRow(old(rows)[id], now)] else old(rows)
    {
      if id >= |rows| { return; }
      rows := rows[id := MarkedRow(rows[id], now)];
    }

    method ReleaseForRetry(id: nat, error: string, now: nat)
      modifies this
      ensures rows == if id < |old(rows)|
                      then old(rows)[id := ReleasedRow(old(rows)[id], now, settings.retryMax, error)] else old(rows)
    {
      if id >= |rows| { return; }
      rows := rows[id := ReleasedRow(rows[id], now, settings.retryMax, error)];
    }

    /** The body of the publishing loop: whether the loop goes on, and whether the event was published. */
    method PublishOne(id: nat, round: Round) returns (goesOn: bool, accepted: bool)
      requires id < |rows|
      modifies this
      ensures rows == old(rows)[id := SettledRow(old(rows)[id], id, round, settings.retryMax)]
      ensures !goesOn ==> rows == old(rows)
      ensures goesOn == !round.PublicationOf(id).Unhandled? && accepted == round.PublicationOf(id).Accepted?
    {
      match round.PublicationOf(id)
      case Accepted =>
        if rows[id].eventType == ProcessAiJob { MarkDispatched(id, round.TimeOf(id)); }
        return true, true;
      case Refused(error) =>
        ReleaseForRetry(id, error, round.TimeOf(id));
        return true, false;
      case Unhandled => return false, false;
    }

    /** The publishing loop. */
    method Publish(events: seq<nat>, round: Round) returns (finished: bool, published: seq<nat>)
      requires forall k :: 0 <= k < |events| ==> events[k] < |rows|
      modifies this
      ensures rows == SettledRows(old(rows), Handled(events, round), round, settings.retryMax)
      ensures published == PublishedIds(Handled(events, round), round)
      ensures finished <==> Handled(events, round) == events
    {
      published := [];
      for k := 0 to |events|
        invariant rows == SettledRows(old(rows), events[..k], round, settings.retryMax)
        invariant published == PublishedIds(events[..k], round)
        invariant forall i :: 0 <= i < k ==> !round.PublicationOf(events[i]).Unhandled?
      {
        SettleOneMore(old(rows), events, k, round, settings.retryMax);
        var goesOn, accepted := PublishOne(events[k], round);
        if !goesOn {
          HandledIs(events, round, k);
          return false, published;
        }
        if accepted { published := published + [events[k]]; }
      }
      assert events[..|events|] == events;
      HandledIs(events, round, |events|);
      finished := true;
    }

    /** An exception that is not caught leaves the later rows of the claim locked. */
    method DispatchPending(round: Round) returns (r: Outcome, published: seq<nat>)
      modifies this
      ensures rows == RoundRows(old(rows), round, settings)
      ensures var ids := RoundIds(old(rows), round, settings);
        && published == PublishedIds(Handled(ids, round), round)
        && r == if Handled(ids, round) == ids then Delivered(|published|) else Aborted
      ensures |rows| == |old(rows)| && forall i :: 0 <= i < |rows| ==>
        LeftBy(old(rows)[i], rows[i], i, RoundIds(old(rows), round, settings), round, settings)
    {
      forall i | 0 <= i < |rows|
        ensures LeftBy(rows[i], RoundRows(rows, round, settings)[i], i, RoundIds(rows, round, settings), round, settings)
      {
        RoundLeavesRow(rows, round, settings, i);
      }
      var recovered := RecoverStaleLocks(round.recoverAt);
      ClaimIsInOrder(rows, round.claimAt, settings.batchSize, round.skipped, 0);
      var events := ClaimPending(round.claimAt, round.skipped);
      var finished;
      finished, published := Publish(events, round);
      r := if finished then Delivered(|published|) else Aborted;
    }
  }

  // ------------------------------------------------------------------ draining

  /** Until `horizon` no lock is stale and every PENDING row is available. */
  ghost predicate Calm(rows: seq<Row>, now: nat, horizon: nat, lockTimeout: nat) {
    forall i :: 0 <= i < |rows| ==>
      && !IsStale(rows[i], horizon, lockTimeout)
      && (rows[i].status == Pending ==> rows[i].availableAt <= now)
  }

  function Left(n: nat, batch: nat): nat { if n < batch then 0 else n - batch }

  function CountPending(rows: seq<Row>, start: nat := 0): nat
    requires start <= |rows|
    decreases |rows| - start
  {
    if start == |rows| then 0
    else (if rows[start].status == Pending then 1 else 0) + CountPending(rows, start + 1)
  }

  lemma {:induction false} PendingIsClaimable(rows: seq<Row>, now: nat, start: nat)
    requires start <= |rows|
    requires forall i :: 0 <= i < |rows| && rows[i].status == Pending ==> rows[i].availableAt <= now
    ensures CountPending(rows, start) == CountClaimable(rows, now, {}, start)
    decreases |rows| - start
  {
    if start < |rows| { PendingIsClaimable(rows, now, start + 1); }
  }

  lemma {:induction false} ClaimedRowsLeavePending(before: seq<Row>, after: seq<Row>, now: nat, limit: nat, start: nat)
    requires start <= |before| == |after|
    requires forall i :: 0 <= i < |before| && before[i].status == Pending ==> before[i].availableAt <= now
    requires forall i :: start <= i < |before| ==>
      (after[i].status == Pending <==> before[i].status == Pending && i !in ClaimQuery(before, now, limit, {}, start))
    ensures CountPending(after, start) + |ClaimQuery(before, now, limit, {}, start)| == CountPending(before, start)
    decreases |before| - start
  {
    if start < |before| {
      var ids := ClaimQuery(before, now, limit, {}, start);
      if limit > 0 && before[start].status == Pending {
        var rest := ClaimQuery(before, now, limit - 1, {}, start + 1);
        ClaimIsInOrder(before, now, limit - 1, {}, start + 1);
        assert ids == [start] + rest && ids[0] == start;
        ClaimedRowsLeavePending(before, after, now, limit - 1, start + 1);
      } else {
        ClaimIsInOrder(before, now, limit, {}, start);
        ClaimedRowsLeavePending(before, after, now, limit, start + 1);
      }
    }
  }

  /** No other transaction holds a row and the broker accepts every event. */
  predicate Smooth(round: Round) { round.skipped == {} && round.publications == map[] }

  lemma {:induction false} SmoothHandlesAll(ids: seq<nat>, round: Round)
    requires Smooth(round)
    ensures Handled(ids, round) == ids
  {
    HandledIs(ids, round, |ids|);
    assert ids[..|ids|] == ids;
  }

  /** Without stale locks a smooth round claims directly from the table and settles what it claimed. */
  lemma CalmRoundEffect(rows: seq<Row>, round: Round, horizon: nat, settings: Settings, i: nat)
    requires Smooth(round) && round.recoverAt <= horizon && Calm(rows, round.claimAt, horizon, settings.lockTimeout) && i < |rows|
    ensures RoundIds(rows, round, settings) == ClaimQuery(rows, round.claimAt, settings.batchSize, {}, 0)
    ensures RoundRows(rows, round, settings)[i] ==
      if i !in RoundIds(rows, round, settings) then rows[i]
      else if rows[i].eventType == ProcessAiJob then MarkedRow(ClaimedRow(rows[i], round.claimAt), round.TimeOf(i))
      else ClaimedRow(rows[i], round.claimAt)
  {
    assert RecoveredRows(rows, round.recoverAt, settings.lockTimeout) == rows;
    var ids := ClaimQuery(rows, round.claimAt, settings.batchSize, {}, 0);
    SmoothHandlesAll(ids, round);
    ClaimIsInOrder(rows, round.claimAt, settings.batchSize, {}, 0);
    SettledAt(ClaimedRows(rows, ids, round.claimAt), ids, round, settings.retryMax, i);
  }

  /** What a calm smooth round does to one row's status. */
  ghost predicate RowTaken(rows: seq<Row>, after: seq<Row>, ids: seq<nat>, i: nat)
    requires i < |rows| == |after|
  {
    && (after[i].status == Pending <==> rows[i].status == Pending && i !in ids)
    && (i !in ids ==> after[i] == rows[i])
  }

  lemma CalmRoundTakes(rows: seq<Row>, round: Round, horizon: nat, settings: Settings, i: nat)
    requires Smooth(round) && round.recoverAt <= horizon && Calm(rows, round.claimAt, horizon, settings.lockTimeout) && i < |rows|
    ensures RowTaken(rows, RoundRows(rows, round, settings), ClaimQuery(rows, round.claimAt, settings.batchSize, {}, 0), i)
  {
    CalmRoundEffect(rows, round, horizon, settings, i);
  }

  lemma RoundLeaves(rows: seq<Row>, round: Round, horizon: nat, settings: Settings)
    requires Smooth(round) && round.recoverAt <= horizon && Calm(rows, round.claimAt, horizon, settings.lockTimeout)
    ensures CountPending(RoundRows(rows, round, settings)) + |ClaimQuery(rows, round.claimAt, settings.batchSize, {}, 0)| == CountPending(rows)
  {
    var after := RoundRows(rows, round, settings);
    forall i | 0 <= i < |rows|
      ensures after[i].status == Pending
              <==> rows[i].status == Pending && i !in ClaimQuery(rows, round.claimAt, settings.batchSize, {}, 0)
    {
      CalmRoundTakes(rows, round, horizon, settings, i);
    }
    ClaimedRowsLeavePending(rows, after, round.claimAt, settings.batchSize, 0);
  }

  /** One calm smooth round takes min(batch, n) of the n PENDING rows. */
  lemma RoundTakesABatch(rows: seq<Row>, round: Round, horizon: nat, settings: Settings)
    requires Smooth(round) && round.recoverAt <= horizon && Calm(rows, round.claimAt, horizon, settings.lockTimeout)
    ensures CountPending(RoundRows(rows, round, settings)) == Left(CountPending(rows), settings.batchSize)
  {
    RoundLeaves(rows, round, horizon, settings);
    ClaimSize(rows, round.claimAt, settings.batchSize, {}, 0);
    PendingIsClaimable(rows, round.claimAt, 0);
  }

  /** And it takes the oldest: no row is left PENDING while a younger one is taken. */
  lemma RoundTakesOldest(rows: seq<Row>, round: Round, horizon: nat, settings: Settings, i: nat, j: nat)
    requires Smooth(round) && round.recoverAt <= horizon && Calm(rows, round.claimAt, horizon, settings.lockTimeout)
    requires i < j < |rows| && rows[i].status == Pending == rows[j].status
    ensures RoundRows(rows, round, settings)[i].status == Pending ==> RoundRows(rows, round, settings)[j] == rows[j]
  {
    var ids := ClaimQuery(rows, round.claimAt, settings.batchSize, {}, 0);
    CalmRoundTakes(rows, round, horizon, settings, i);
    CalmRoundTakes(rows, round, horizon, settings, j);
    ClaimQueryTakesOldest(rows, round.claimAt, settings.batchSize, {}, 0);
    assert Claimable(rows, round.claimAt, {}, i);
  }

  lemma RoundStaysCalm(rows: seq<Row>, round: Round, later: nat, horizon: nat, settings: Settings)
    requires Smooth(round) && round.recoverAt <= horizon && round.claimAt <= later
    requires horizon <= round.claimAt + settings.lockTimeout
    requires Calm(rows, round.claimAt, horizon, settings.lockTimeout)
    ensures Calm(RoundRows(rows, round, settings), later, horizon, settings.lockTimeout)
  {
    forall i | 0 <= i < |rows|
      ensures var r := RoundRows(rows, round, settings)[i];
        !IsStale(r, horizon, settings.lockTimeout) && (r.status == Pending ==> r.availableAt <= later)
    {
      CalmRoundEffect(rows, round, horizon, settings, i);
    }
  }

  function Rounds(rows: seq<Row>, rounds: seq<Round>, settings: Settings): seq<Row>
    decreases |rounds|
  {
    if rounds == [] then rows else Rounds(RoundRows(rows, rounds[0], settings), rounds[1..], settings)
  }

  /** Smooth rounds in order, all claiming within one lock timeout before the horizon. */
  ghost predicate IsSchedule(rounds: seq<Round>, horizon: nat, lockTimeout: nat) {
    rounds == [] ||
    (&& Smooth(rounds[0]) && rounds[0].recoverAt <= horizon <= rounds[0].claimAt + lockTimeout
     && (|rounds| > 1 ==> rounds[0].claimAt <= rounds[1].claimAt)
     && IsSchedule(rounds[1..], horizon, lockTimeout))
  }

  function AfterBatches(n: nat, k: nat, batch: nat): nat {
    if k == 0 then n else AfterBatches(Left(n, batch), k - 1, batch)
  }

  lemma NextRound(rows: seq<Row>, rounds: seq<Round>, horizon: nat, settings: Settings)
    requires settings.Valid() && rounds != [] && IsSchedule(rounds, horizon, settings.lockTimeout)
    requires Calm(rows, rounds[0].claimAt, horizon, settings.lockTimeout)
    ensures var after := RoundRows(rows, rounds[0], settings);
      && CountPending(after) == Left(CountPending(rows), settings.batchSize)
      && (|rounds| > 1 ==> Calm(after, rounds[1].claimAt, horizon, settings.lockTimeout))
  {
    RoundTakesABatch(rows, rounds[0], horizon, settings);
    if |rounds| > 1 { RoundStaysCalm(rows, rounds[0], rounds[1].claimAt, horizon, settings); }
  }

  /** k calm smooth rounds take k full batches of the n PENDING rows, or all of them. */
  lemma {:induction false} RoundsDrain(rows: seq<Row>, rounds: seq<Round>, horizon: nat, settings: Settings)
    requires settings.Valid() && IsSchedule(rounds, horizon, settings.lockTimeout)
    requires rounds != [] ==> Calm(rows, rounds[0].claimAt, horizon, settings.lockTimeout)
    ensures CountPending(Rounds(rows, rounds, settings))
            == AfterBatches(CountPending(rows), |rounds|, settings.batchSize)
    decreases |rounds|
  {
    if rounds != [] {
      NextRound(rows, rounds, horizon, settings);
      RoundsDrain(RoundRows(rows, rounds[0], settings), rounds[1..], horizon, settings);
    }
  }

  function RoundsNeeded(n: nat, batch: nat): nat
    requires batch > 0
  {
    if n == 0 then 0 else 1 + RoundsNeeded(Left(n, batch), batch)
  }

  lemma {:induction false} EmptyAfterRoundsNeeded(n: nat, k: nat, batch: nat)
    requires batch > 0
    ensures AfterBatches(n, k, batch) == 0 <==> k >= RoundsNeeded(n, batch)
    decreases k
  {
    if k > 0 { EmptyAfterRoundsNeeded(Left(n, batch), k - 1, batch); }
  }

  /** A calm table of n PENDING rows has none left after k rounds exactly when k >= ceil(n / batch). */
  lemma DrainedAfterCeilingRounds(rows: seq<Row>, rounds: seq<Round>, horizon: nat, settings: Settings)
    requires settings.Valid() && IsSchedule(rounds, horizon, settings.lockTimeout)
    requires rounds != [] ==> Calm(rows, rounds[0].claimAt, horizon, settings.lockTimeout)
    ensures CountPending(Rounds(rows, rounds, settings)) == 0
            <==> |rounds| >= RoundsNeeded(CountPending(rows), settings.batchSize)
  {
    RoundsDrain(rows, rounds, horizon, settings);
    EmptyAfterRoundsNeeded(CountPending(rows), |rounds|, settings.batchSize);
  }

  lemma {:induction false} RoundsNeededIsCeiling(n: nat, batch: nat)
    requires batch > 0
    ensures n <= batch * RoundsNeeded(n, batch) < n + batch
    decreases n
  {
    if n > 0 {
      var m := Left(n, batch);
      var q := RoundsNeeded(m, batch);
      RoundsNeededIsCeiling(m, batch);
      assert batch * (q + 1) == batch * q + batch;
    }
  }
}
