/** When a DISPATCHED outbox row stays DISPATCHED: release_for_retry has no status guard, so it depends on who
    still holds the event. */
module OutboxPermanence {
  import opened Basics
  import opened OutboxRows
  import opened Protocol
  import opened ProtocolInvariant
  import opened ProtocolPreservation

  function RowStatus(s: State, e: nat): Option<DispatchStatus> {
    if e < |s.outbox| then Some(s.outbox[e].status) else None
  }

  /** The dispatcher still has the event's turn ahead of it. */
  predicate Holds(d: DispatcherProc, e: nat) {
    match d.pc
    case AtEnqueue => e in d.events
    case AtRelease(_) => e in d.events
    case AtMark => d.events != [] && e in d.events[1..]
    case _ => false
  }

  /** The handler is about to send the event, or to release it after an error. */
  predicate Sends(v: Delivery, e: nat) { v.eventId == e && (v.pc.AtSend? || v.pc.AtReleaseSent?) }

  predicate Releasable(s: State, e: nat) {
    || (exists d :: 0 <= d < |s.dispatchers| && Holds(s.dispatchers[d], e))
    || (exists v :: 0 <= v < |s.deliveries| && Sends(s.deliveries[v], e))
  }

  // ------------------------------------------------------------------ nobody holds the event

  ghost predicate NoneHolds(dispatchers: seq<DispatcherProc>, e: nat) {
    forall d :: 0 <= d < |dispatchers| ==> !Holds(dispatchers[d], e)
  }

  ghost predicate NoneSends(deliveries: seq<Delivery>, e: nat) {
    forall v :: 0 <= v < |deliveries| ==> !Sends(deliveries[v], e)
  }

  ghost predicate Shelved(s: State, e: nat) {
    RowStatus(s, e) == Some(Dispatched) && NoneHolds(s.dispatchers, e) && NoneSends(s.deliveries, e)
  }

  lemma ShelvedIff(s: State, e: nat)
    ensures Shelved(s, e) <==> RowStatus(s, e) == Some(Dispatched) && !Releasable(s, e)
  {
  }

  lemma RecoverKeepsShelved(cfg: Config, s: State, d: nat, e: nat)
    requires Shelved(s, e) && d < |s.dispatchers|
    ensures Shelved(RecoverStep(cfg, s, d), e)
  {
  }

  /** A claim takes PENDING rows only. */
  lemma ClaimKeepsShelved(cfg: Config, s: State, d: nat, skipped: set<nat>, e: nat)
    requires Shelved(s, e) && d < |s.dispatchers|
    ensures Shelved(ClaimRowsStep(cfg, s, d, skipped), e)
  {
    var ids := ClaimQuery(s.outbox, s.now, cfg.settings.batchSize, skipped, 0);
    ClaimIsInOrder(s.outbox, s.now, cfg.settings.batchSize, skipped, 0);
    assert !Claimable(s.outbox, s.now, skipped, e);
    assert e !in ids;
  }

  lemma EnqueueKeepsShelved(s: State, d: nat, outcome: EnqueueOutcome, e: nat)
    requires Shelved(s, e) && d < |s.dispatchers| && s.dispatchers[d].pc == AtEnqueue
    ensures Shelved(EnqueueStep(s, d, outcome), e)
  {
    assert !Holds(s.dispatchers[d], e);
  }

  lemma MarkKeepsShelved(s: State, d: nat, e: nat)
    requires Shelved(s, e) && d < |s.dispatchers| && s.dispatchers[d].pc == AtMark
    ensures Shelved(MarkStep(s, d), e)
  {
    assert !Holds(s.dispatchers[d], e);
  }

  lemma ReleaseKeepsShelved(cfg: Config, s: State, d: nat, error: string, e: nat)
    requires Shelved(s, e) && d < |s.dispatchers| && s.dispatchers[d].pc == AtRelease(error)
    ensures Shelved(ReleaseStep(cfg, s, d, error), e)
  {
    assert !Holds(s.dispatchers[d], e);
  }

  lemma DispatcherKeepsShelved(cfg: Config, s: State, d: nat, choice: DispatcherChoice, e: nat)
    requires Shelved(s, e) && d < |s.dispatchers|
    ensures Shelved(DispatcherStep(cfg, s, d, choice), e)
  {
    match s.dispatchers[d].pc
    case AtRecover => RecoverKeepsShelved(cfg, s, d, e);
    case AtClaimRows => ClaimKeepsShelved(cfg, s, d, choice.skipped, e);
    case AtEnqueue => EnqueueKeepsShelved(s, d, choice.outcome, e);
    case AtMark => MarkKeepsShelved(s, d, e);
    case AtRelease(error) => ReleaseKeepsShelved(cfg, s, d, error, e);
    case DispatcherDone =>
  }

  lemma DeliveryKeepsShelved(cfg: Config, s: State, v: nat, outcome: SendOutcome, e: nat)
    requires Shelved(s, e) && v < |s.deliveries|
    ensures Shelved(DeliveryStep(cfg, s, v, outcome), e)
  {
    assert !Sends(s.deliveries[v], e);
    match s.deliveries[v].pc
    case AtRead => assert Shelved(ReadStep(s, v), e);
    case AtSend(p) => assert Shelved(SendStep(s, v, p, outcome), e);
    case AtMarkSent => assert Shelved(MarkSentStep(s, v), e);
    case AtReleaseSent(error) => assert Shelved(ReleaseSentStep(cfg, s, v, error), e);
    case DeliveryDone =>
  }

  /** Workers and callers append rows and leave dispatchers and handlers alone. */
  ghost predicate OutboxGrows(s: State, t: State) {
    s.outbox <= t.outbox && t.dispatchers == s.dispatchers && t.deliveries == s.deliveries
  }

  lemma WorkerOnlyAppends(cfg: Config, s: State, w: nat, choice: WorkerChoice)
    requires w < |s.workers|
    ensures OutboxGrows(s, WorkerStep(cfg, s, w, choice))
  {
  }

  lemma ApplyKeepsShelved(cfg: Config, s: State, a: Action, e: nat)
    requires Shelved(s, e)
    ensures Shelved(Apply(cfg, s, a), e)
  {
    match a
    case RunDispatcher(d, choice) => if d < |s.dispatchers| { DispatcherKeepsShelved(cfg, s, d, choice, e); }
    case RunDelivery(v, outcome) => if v < |s.deliveries| { DeliveryKeepsShelved(cfg, s, v, outcome, e); }
    case RunWorker(w, choice) => if w < |s.workers| { WorkerOnlyAppends(cfg, s, w, choice); }
    case RunCreator(c) => if c < |s.creators| { assert OutboxGrows(s, CreatorStep(s, c)); }
    case _ =>
  }

  lemma {:induction false} RunKeepsShelved(cfg: Config, s: State, run: seq<Action>, e: nat)
    requires Shelved(s, e)
    ensures Shelved(Run(cfg, s, run), e)
    decreases |run|
  {
    if run != [] {
      ApplyKeepsShelved(cfg, s, run[0], e);
      RunKeepsShelved(cfg, Apply(cfg, s, run[0]), run[1..], e);
    }
  }

  // ------------------------------------------------------------------ somebody holds the event

  lemma RunCons(cfg: Config, s: State, a: Action, more: seq<Action>)
    ensures Run(cfg, s, [a] + more) == Run(cfg, Apply(cfg, s, a), more)
  {
    assert ([a] + more)[1..] == more;
  }

  /** The broker refuses everything from here on. */
  function Refusing(d: nat): Action { RunDispatcher(d, DispatcherChoice({}, Refused("OSError"))) }

  /** One refused step of a dispatcher that holds e: it releases e, or holds it still and is further on. */
  lemma RefusedStep(cfg: Config, s: State, d: nat, e: nat)
    requires Inv(cfg, s) && d < |s.dispatchers| && Holds(s.dispatchers[d], e)
    ensures var me, t := s.dispatchers[d], Apply(cfg, s, Refusing(d));
      || RowStatus(t, e) == Some(Pending)
      || (&& d < |t.dispatchers| && Holds(t.dispatchers[d], e)
          && (|t.dispatchers[d].events| < |me.events|
              || (t.dispatchers[d].events == me.events && me.pc == AtEnqueue && t.dispatchers[d].pc.AtRelease?)))
  {
    var me := s.dispatchers[d];
    assert DispatcherOk(s.outbox, s.broker, me);
    match me.pc
    case AtEnqueue => assert EnqueueStep(s, d, Refused("OSError")).dispatchers[d] == DispatcherProc(me.events, AtRelease("OSError"));
    case AtMark => assert MarkStep(s, d).dispatchers[d] == DispatcherProc(me.events[1..], AtEnqueue);
    case AtRelease(error) => assert ReleaseStep(cfg, s, d, error).dispatchers[d] == DispatcherProc(me.events[1..], AtEnqueue);
    case _ =>
  }

  /** A dispatcher that holds e can be driven to release it. */
  lemma {:induction false} HolderReleases(cfg: Config, s: State, d: nat, e: nat) returns (more: seq<Action>)
    requires Inv(cfg, s) && d < |s.dispatchers| && Holds(s.dispatchers[d], e)
    ensures RowStatus(Run(cfg, s, more), e) == Some(Pending)
    decreases |s.dispatchers[d].events|, if s.dispatchers[d].pc == AtEnqueue then 1 else 0
  {
    var a := Refusing(d);
    var t := Apply(cfg, s, a);
    RefusedStep(cfg, s, d, e);
    ApplyKeepsInv(cfg, s, a);
    var rest: seq<Action> := [];
    if RowStatus(t, e) != Some(Pending) {
      rest := HolderReleases(cfg, t, d, e);
    }
    RunCons(cfg, s, a, rest);
    more := [a] + rest;
  }

  lemma SenderReleases(cfg: Config, s: State, v: nat, e: nat) returns (more: seq<Action>)
    requires Inv(cfg, s) && v < |s.deliveries| && Sends(s.deliveries[v], e)
    ensures RowStatus(Run(cfg, s, more), e) == Some(Pending)
  {
    assert DeliveryOk(s.outbox, s.acked, s.deliveries[v]);
    var a := RunDelivery(v, AppErrorSeen(false, "AppError"));
    var t := Apply(cfg, s, a);
    RunCons(cfg, s, a, []);
    if s.deliveries[v].pc.AtReleaseSent? {
      assert t == ReleaseSentStep(cfg, s, v, s.deliveries[v].pc.error);
      more := [a] + [];
    } else {
      assert t == SendStep(s, v, s.deliveries[v].pc.payload, AppErrorSeen(false, "AppError"));
      assert Apply(cfg, t, a) == ReleaseSentStep(cfg, t, v, "AppError");
      RunCons(cfg, t, a, []);
      RunCons(cfg, s, a, [a] + []);
      more := [a] + ([a] + []);
    }
  }

  lemma ReleasableIsReleased(cfg: Config, s: State, e: nat) returns (more: seq<Action>)
    requires Inv(cfg, s) && Releasable(s, e)
    ensures RowStatus(Run(cfg, s, more), e) == Some(Pending)
  {
    if d :| 0 <= d < |s.dispatchers| && Holds(s.dispatchers[d], e) {
      more := HolderReleases(cfg, s, d, e);
    } else {
      var v :| 0 <= v < |s.deliveries| && Sends(s.deliveries[v], e);
      more := SenderReleases(cfg, s, v, e);
    }
  }

  // ------------------------------------------------------------------ the exact condition

  /** A DISPATCHED row stays DISPATCHED in every continuation exactly when no dispatcher has the event's turn
      ahead of it and no handler is about to send or release it. */
  lemma DispatchedPermanentIff(cfg: Config, run: seq<Action>, e: nat)
    requires RowStatus(After(cfg, run), e) == Some(Dispatched)
    ensures (forall more :: RowStatus(Run(cfg, After(cfg, run), more), e) == Some(Dispatched))
            <==> !Releasable(After(cfg, run), e)
  {
    var s := After(cfg, run);
    AfterInv(cfg, run);
    ShelvedIff(s, e);
    if Releasable(s, e) {
      var more := ReleasableIsReleased(cfg, s, e);
      assert RowStatus(Run(cfg, s, more), e) != Some(Dispatched);
    } else {
      forall more ensures RowStatus(Run(cfg, s, more), e) == Some(Dispatched) {
        RunKeepsShelved(cfg, s, more, e);
      }
    }
  }
}
