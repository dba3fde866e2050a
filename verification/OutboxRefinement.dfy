/** The protocol's dispatcher does what a round of the dispatcher object does: run alone, against a broker that
    answers the same, it leaves the same table. */
module OutboxRefinement {
  import opened Basics
  import opened OutboxRows
  import opened Protocol
  import D = OutboxDispatcher

  /** A round at one moment. */
  function RoundAt(now: nat, publications: map<nat, D.Publication>): D.Round {
    D.Round(now, now, map[], {}, publications)
  }

  function Go(d: nat, outcome: EnqueueOutcome): Action { RunDispatcher(d, DispatcherChoice({}, outcome)) }

  /** Nobody but dispatcher d acts. */
  predicate Alone(run: seq<Action>, d: nat) { forall k :: 0 <= k < |run| ==> run[k].RunDispatcher? && run[k].dispatcher == d }

  lemma RunTwo(cfg: Config, s: State, a: Action, b: Action)
    ensures Run(cfg, s, [a]) == Apply(cfg, s, a) && Run(cfg, s, [a, b]) == Apply(cfg, Apply(cfg, s, a), b)
  {
    assert [a][1..] == [] && [a, b][1..] == [b] && [b][1..] == [];
    assert Run(cfg, s, [a]) == Run(cfg, Apply(cfg, s, a), []);
    assert Run(cfg, Apply(cfg, s, a), [b]) == Run(cfg, Apply(cfg, Apply(cfg, s, a), b), []);
  }

  lemma {:induction false} RunAppend(cfg: Config, s: State, run: seq<Action>, more: seq<Action>)
    ensures Run(cfg, s, run + more) == Run(cfg, Run(cfg, s, run), more)
    decreases |run|
  {
    if run == [] {
      assert run + more == more;
    } else {
      assert (run + more)[1..] == run[1..] + more;
      RunAppend(cfg, Apply(cfg, s, run[0]), run[1..], more);
    }
  }

  /** The dispatcher stands before the turn of its first remaining event. */
  predicate Stands(s: State, d: nat, events: seq<nat>, outbox: seq<Row>, now: nat) {
    && d < |s.dispatchers| && s.dispatchers[d] == DispatcherProc(events, AtEnqueue)
    && s.outbox == outbox && s.now == now
  }

  /** The actions of one turn. */
  function Turn(d: nat, row: Row, p: D.Publication): (run: seq<Action>)
    ensures Alone(run, d)
  {
    match p
    case Accepted => if row.eventType == ProcessAiJob then [Go(d, Accepted), Go(d, Accepted)] else [Go(d, Accepted)]
    case Refused(error) => [Go(d, Refused(error)), Go(d, Refused(error))]
    case Unhandled => []
  }

  lemma AcceptedTurn(cfg: Config, s: State, d: nat, events: seq<nat>, outbox: seq<Row>, now: nat)
    requires Stands(s, d, events, outbox, now) && events != [] && events[0] < |outbox|
    ensures var row := outbox[events[0]];
      Stands(Run(cfg, s, Turn(d, row, D.Accepted)), d, events[1..],
             outbox[events[0] := if row.eventType == ProcessAiJob then MarkedRow(row, now) else row], now)
  {
    var a := Go(d, Accepted);
    var t := Apply(cfg, s, a);
    RunTwo(cfg, s, a, a);
    assert t == EnqueueStep(s, d, Accepted);
    if outbox[events[0]].eventType == ProcessAiJob {
      assert Apply(cfg, t, a) == MarkStep(t, d);
    }
  }

  lemma RefusedTurn(cfg: Config, s: State, d: nat, events: seq<nat>, outbox: seq<Row>, now: nat, error: string)
    requires Stands(s, d, events, outbox, now) && events != [] && events[0] < |outbox|
    ensures var row := outbox[events[0]];
      Stands(Run(cfg, s, Turn(d, row, D.Refused(error))), d, events[1..],
             outbox[events[0] := ReleasedRow(row, now, cfg.settings.retryMax, error)], now)
  {
    var a := Go(d, Refused(error));
    var t := Apply(cfg, s, a);
    RunTwo(cfg, s, a, a);
    assert t == EnqueueStep(s, d, Refused(error));
    assert Apply(cfg, t, a) == ReleaseStep(cfg, t, d, error);
  }

  lemma AloneAppend(run: seq<Action>, more: seq<Action>, d: nat)
    requires Alone(run, d) && Alone(more, d)
    ensures Alone(run + more, d)
  {
  }

  lemma OneTurn(cfg: Config, s: State, d: nat, events: seq<nat>, outbox: seq<Row>, round: D.Round, now: nat)
    requires Stands(s, d, events, outbox, now) && events != [] && events[0] < |outbox|
    requires round.claimAt == now && round.settledAt == map[] && !round.PublicationOf(events[0]).Unhandled?
    ensures var id := events[0];
      Stands(Run(cfg, s, Turn(d, outbox[id], round.PublicationOf(id))), d, events[1..],
             outbox[id := D.SettledRow(outbox[id], id, round, cfg.settings.retryMax)], now)
  {
    match round.PublicationOf(events[0])
    case Accepted => AcceptedTurn(cfg, s, d, events, outbox, now);
    case Refused(error) => RefusedTurn(cfg, s, d, events, outbox, now, error);
  }

  /** The turns of all handled events from number k on. */
  lemma {:induction false} Turns(cfg: Config, s: State, d: nat, rows: seq<Row>, ids: seq<nat>, k: nat, round: D.Round, now: nat)
    returns (run: seq<Action>)
    requires k <= |ids| && Increasing(ids) && (forall i :: 0 <= i < |ids| ==> ids[i] < |rows|)
    requires round.claimAt == now && round.settledAt == map[]
    requires forall i :: 0 <= i < k ==> !round.PublicationOf(ids[i]).Unhandled?
    requires Stands(s, d, ids[k..], D.SettledRows(rows, ids[..k], round, cfg.settings.retryMax), now)
    ensures Alone(run, d) && Run(cfg, s, run).outbox == D.SettledRows(rows, D.Handled(ids, round), round, cfg.settings.retryMax)
    decreases |ids| - k
  {
    D.HandledIs(ids, round, k);
    run := [];
    if k < |ids| && !round.PublicationOf(ids[k]).Unhandled? {
      D.SettleOneMore(rows, ids, k, round, cfg.settings.retryMax);
      OneTurn(cfg, s, d, ids[k..], s.outbox, round, now);
      assert ids[k..][0] == ids[k] && ids[k..][1..] == ids[k + 1..];
      var turn := Turn(d, s.outbox[ids[k]], round.PublicationOf(ids[k]));
      var rest := Turns(cfg, Run(cfg, s, turn), d, rows, ids, k + 1, round, now);
      RunAppend(cfg, s, turn, rest);
      AloneAppend(turn, rest, d);
      run := turn + rest;
    }
  }

  lemma RecoverAndClaim(cfg: Config, s: State, d: nat, round: D.Round) returns (run: seq<Action>)
    requires d < |s.dispatchers| && s.dispatchers[d].pc == AtRecover
    requires round.recoverAt == round.claimAt == s.now && round.skipped == {}
    ensures Alone(run, d)
    ensures var recovered, ids := RecoveredRows(s.outbox, s.now, cfg.settings.lockTimeout), D.RoundIds(s.outbox, round, cfg.settings);
      Stands(Run(cfg, s, run), d, ids, ClaimedRows(recovered, ids, s.now), s.now)
  {
    var a := Go(d, Accepted);
    RunTwo(cfg, s, a, a);
    assert Apply(cfg, s, a) == RecoverStep(cfg, s, d);
    assert Apply(cfg, Apply(cfg, s, a), a) == ClaimRowsStep(cfg, Apply(cfg, s, a), d, {});
    run := [a, a];
  }

  /** Whatever the broker answers, a protocol dispatcher run alone can leave exactly the table of the round. */
  lemma DispatcherDoesRound(cfg: Config, s: State, d: nat, publications: map<nat, D.Publication>) returns (run: seq<Action>)
    requires d < |s.dispatchers| && s.dispatchers[d].pc == AtRecover
    ensures Alone(run, d) && Run(cfg, s, run).outbox == D.RoundRows(s.outbox, RoundAt(s.now, publications), cfg.settings)
  {
    var round := RoundAt(s.now, publications);
    var recovered := RecoveredRows(s.outbox, s.now, cfg.settings.lockTimeout);
    var ids := D.RoundIds(s.outbox, round, cfg.settings);
    var claimed := ClaimedRows(recovered, ids, s.now);
    var first := RecoverAndClaim(cfg, s, d, round);
    ClaimIsInOrder(recovered, s.now, cfg.settings.batchSize, {}, 0);
    assert ids[0..] == ids && ids[..0] == [];
    var rest := Turns(cfg, Run(cfg, s, first), d, claimed, ids, 0, round, s.now);
    RunAppend(cfg, s, first, rest);
    run := first + rest;
  }
}
