/** What holds after every run of the job protocol, whatever the interleaving, the redeliveries, the
    crashes and the exceptions. */
module ProtocolTheorems {
  import opened Basics
  import opened JobStateMachine
  import opened OutboxRows
  import opened Idempotency
  import opened Protocol
  import opened ProtocolInvariant
  import opened ProtocolPreservation

  function StatusAt(s: State, job: nat): Option<JobStatus> {
    if job < |s.jobs| then Some(s.jobs[job].status) else None
  }

  // ------------------------------------------------------------------ results

  /** A job is COMPLETED iff it has an output iff it has a result webhook row, and there is at most
      one of each; every job has exactly one process row. */
  lemma CompletedIffOutputIffWebhook(cfg: Config, run: seq<Action>)
    ensures UniqueOutputs(After(cfg, run).outputs)
    ensures UniqueRows(After(cfg, run).outbox)
    ensures forall job :: 0 <= job < |After(cfg, run).jobs| ==>
      JobResultsOk(After(cfg, run).jobs, After(cfg, run).outputs, After(cfg, run).outbox, job)
  {
    AfterInv(cfg, run);
  }

  /** No webhook handler ever meets one of its ValueError guards, and no create_job call ever finds
      the row missing after a unique-key violation. */
  lemma GuardsNeverFire(cfg: Config, run: seq<Action>)
    ensures After(cfg, run).guardTrips == 0
    ensures forall c :: 0 <= c < |After(cfg, run).creators|
              ==> After(cfg, run).creators[c].pc != Returned(IntegrityErrorRaised)
  {
    AfterInv(cfg, run);
    var s := After(cfg, run);
    forall c | 0 <= c < |s.creators| ensures s.creators[c].pc != Returned(IntegrityErrorRaised) {
      assert CreatorOk(s.jobs, s.creators[c]);
    }
  }

  /** The pipeline body of a job is entered at most once, however often its message is delivered. */
  lemma PipelineEnteredAtMostOnce(cfg: Config, run: seq<Action>, job: nat)
    ensures multiset(After(cfg, run).entries)[job] <= 1
  {
    AfterInv(cfg, run);
    CountAtMostOne(After(cfg, run).entries, job);
  }

  lemma {:induction false} CountAtMostOne(a: seq<nat>, x: nat)
    requires forall k, l :: 0 <= k < l < |a| ==> a[k] != a[l]
    ensures multiset(a)[x] <= 1
    decreases |a|
  {
    if a != [] {
      var last, init := a[|a| - 1], a[..|a| - 1];
      assert a == init + [last];
      CountAtMostOne(init, x);
      assert last !in init;
    }
  }

  // ------------------------------------------------------------------ terminal statuses

  function OwnerPc(s: State, job: nat): Option<WorkerPc> {
    if job in s.owners && s.owners[job] < |s.workers| then Some(s.workers[s.owners[job]].pc) else None
  }

  /** The owner, at `pc`, will still write over `status`: its writes are decided by its cached copy.
      CANCELED is noticed by the check after the pipeline and, by a refreshing worker, at the last
      locked read; FAILED only at that read. */
  predicate WritesOver(refresh: bool, pc: WorkerPc, status: JobStatus) {
    match status
    case Canceled => pc.AtRetrieve? || pc.AtValidate? || (pc.AtFinal? && !refresh)
    case Failed => IsActive(pc) && (pc.AtFinal? ==> !refresh)
    case _ => false
  }

  predicate Overwritable(cfg: Config, s: State, job: nat) {
    && StatusAt(s, job).Some? && OwnerPc(s, job).Some?
    && WritesOver(cfg.refresh, OwnerPc(s, job).value, StatusAt(s, job).value)
  }

  ghost predicate Settled(cfg: Config, s: State, job: nat, status: JobStatus) {
    StatusAt(s, job) == Some(status) && status in TERMINAL_JOB_STATES && !Overwritable(cfg, s, job)
  }

  /** The owner's own step over a status it does not write over. */
  lemma OwnerStepKeepsSettled(cfg: Config, s: State, w: nat, choice: WorkerChoice, job: nat, status: JobStatus)
    requires Settled(cfg, s, job, status)
    requires Owns(s.owners, w, job) && OwnerOk(s.jobs, s.workers, job, w) && WorkerOk(s.jobs, s.owners, w, s.workers[w])
    ensures Settled(cfg, WorkerStep(cfg, s, w, choice), job, status)
  {
    match s.workers[w].pc
    case AtRetrieve =>
    case InPipeline =>
    case AtCancelCheck(_) =>
    case AtValidate(_) =>
    case AtFinal(_) =>
    case _ =>
  }

  /** What a worker's step does to a job it does not own: nothing, unless the job is not terminal. */
  ghost predicate LeavesJob(s: State, t: State, job: nat) {
    && (StatusAt(s, job).Some? && StatusAt(s, job).value in TERMINAL_JOB_STATES ==> StatusAt(t, job) == StatusAt(s, job))
    && OwnerPc(t, job) == OwnerPc(s, job)
  }

  lemma ClaimLeavesJob(s: State, w: nat, job: nat, status: JobStatus)
    requires w < |s.workers| && !Owns(s.owners, w, job) && StatusAt(s, job) == Some(status) && status in TERMINAL_JOB_STATES
    requires job in s.owners ==> s.owners[job] < |s.workers|
    ensures LeavesJob(s, ClaimStep(s, w), job)
  {
  }

  lemma HandlerLeavesJob(s: State, w: nat, job: nat)
    requires w < |s.workers| && !Owns(s.owners, w, job) && (job in s.owners ==> s.owners[job] < |s.workers|)
    ensures LeavesJob(s, HandlerStep(s, w), job)
  {
  }

  /** An active worker owns the job it works on. */
  lemma ActiveLeavesJob(cfg: Config, s: State, w: nat, choice: WorkerChoice, job: nat)
    requires w < |s.workers| && !Owns(s.owners, w, job) && (job in s.owners ==> s.owners[job] < |s.workers|)
    requires s.workers[w].pc != AtClaim && s.workers[w].pc != AtHandler && s.workers[w].job != job
    ensures LeavesJob(s, WorkerStep(cfg, s, w, choice), job)
  {
    match s.workers[w].pc
    case AtRetrieve => assert LeavesJob(s, RetrieveStep(s, w), job);
    case AtCancelCheck(result) => assert LeavesJob(s, CancelCheckStep(s, w, result), job);
    case AtFinal(result) => assert LeavesJob(s, FinalStep(cfg, s, w, result), job);
    case _ =>
  }

  /** A worker that does not own the job writes only QUEUED and non-terminal rows of it. */
  lemma OtherStepKeepsSettled(cfg: Config, s: State, w: nat, choice: WorkerChoice, job: nat, status: JobStatus)
    requires Settled(cfg, s, job, status) && w < |s.workers| && !Owns(s.owners, w, job)
    requires WorkerOk(s.jobs, s.owners, w, s.workers[w])
    requires job in s.owners ==> s.owners[job] < |s.workers|
    ensures Settled(cfg, WorkerStep(cfg, s, w, choice), job, status)
  {
    var pc := s.workers[w].pc;
    if pc == AtClaim { ClaimLeavesJob(s, w, job, status); }
    else if pc == AtHandler { HandlerLeavesJob(s, w, job); }
    else if IsActive(pc) { ActiveLeavesJob(cfg, s, w, choice, job); }
  }

  lemma WorkerActionKeepsSettled(cfg: Config, s: State, w: nat, a: Action, job: nat, status: JobStatus)
    requires Inv(cfg, s) && Settled(cfg, s, job, status) && w < |s.workers|
    requires a.RunWorker? || a == RaiseInWorker(w) || a == CrashWorker(w)
    requires a.worker == w
    ensures Settled(cfg, Apply(cfg, s, a), job, status)
  {
    assert WorkerOk(s.jobs, s.owners, w, s.workers[w]);
    if job in s.owners { assert OwnerOk(s.jobs, s.workers, job, s.owners[job]); }
    if a.RunWorker? {
      if Owns(s.owners, w, job) {
        OwnerStepKeepsSettled(cfg, s, w, a.workerChoice, job, status);
      } else {
        OtherStepKeepsSettled(cfg, s, w, a.workerChoice, job, status);
      }
    }
  }

  /** Jobs, workers and outputs are out of reach of dispatchers and webhook handlers, whose handovers only grow. */
  ghost predicate LegsFrame(s: State, t: State) {
    && t.jobs == s.jobs && t.workers == s.workers && t.owners == s.owners && t.outputs == s.outputs
    && s.received <= t.received && s.acked <= t.acked && s.broker <= t.broker
  }

  lemma DispatcherFrame(cfg: Config, s: State, d: nat, choice: DispatcherChoice)
    requires d < |s.dispatchers|
    ensures LegsFrame(s, DispatcherStep(cfg, s, d, choice))
  {
  }

  lemma DeliveryFrame(cfg: Config, s: State, v: nat, outcome: SendOutcome)
    requires v < |s.deliveries|
    ensures LegsFrame(s, DeliveryStep(cfg, s, v, outcome))
  {
  }

  lemma OutboxLegsFrame(cfg: Config, s: State, a: Action)
    requires a.RunDispatcher? || a.RunDelivery?
    ensures LegsFrame(s, Apply(cfg, s, a))
  {
    match a
    case RunDispatcher(d, choice) => if d < |s.dispatchers| { DispatcherFrame(cfg, s, d, choice); }
    case RunDelivery(v, outcome) => if v < |s.deliveries| { DeliveryFrame(cfg, s, v, outcome); }
  }

  /** Callers and new processes are appended, and rows of new jobs. */
  ghost predicate CallersFrameOf(s: State, t: State) {
    && s.jobs <= t.jobs && s.workers <= t.workers && t.owners == s.owners && t.outputs == s.outputs
    && t.received == s.received && t.acked == s.acked && t.broker == s.broker
  }

  lemma CallersFrame(cfg: Config, s: State, a: Action)
    requires a.Tick? || a.SubmitCreate? || a.RunCreator? || a.Redeliver? || a.StartDispatcher?
    ensures CallersFrameOf(s, Apply(cfg, s, a))
  {
    match a
    case RunCreator(c) => if c < |s.creators| { assert CallersFrameOf(s, CreatorStep(s, c)); }
    case _ =>
  }

  predicate ActsFor(a: Action, w: nat) {
    (a.RunWorker? || a.RaiseInWorker? || a.CrashWorker?) && a.worker == w
  }

  /** Other processes neither move a worker nor touch its cached copy. */
  lemma OthersLeaveWorker(cfg: Config, s: State, a: Action, w: nat)
    requires w < |s.workers| && !ActsFor(a, w)
    ensures w < |Apply(cfg, s, a).workers| && Apply(cfg, s, a).workers[w] == s.workers[w]
  {
    if a.RunDispatcher? || a.RunDelivery? {
      OutboxLegsFrame(cfg, s, a);
    } else if a.RunWorker? {
      if a.worker < |s.workers| { OneWorkerMoves(cfg, s, a.worker, a.workerChoice, w); }
    }
  }

  lemma OneWorkerMoves(cfg: Config, s: State, v: nat, choice: WorkerChoice, w: nat)
    requires v < |s.workers| && w < |s.workers| && v != w
    ensures |WorkerStep(cfg, s, v, choice).workers| == |s.workers|
    ensures WorkerStep(cfg, s, v, choice).workers[w] == s.workers[w]
  {
    match s.workers[v].pc
    case AtClaim => assert ClaimStep(s, v).workers[w] == s.workers[w];
    case AtRetrieve => assert RetrieveStep(s, v).workers[w] == s.workers[w];
    case AtFinal(result) => assert FinalStep(cfg, s, v, result).workers[w] == s.workers[w];
    case _ =>
  }

  /** Cancel and create requests, dispatchers and webhook handlers leave a terminal status alone. */
  lemma OutsideActionKeepsSettled(cfg: Config, s: State, a: Action, job: nat, status: JobStatus)
    requires Settled(cfg, s, job, status) && (job in s.owners ==> s.owners[job] < |s.workers|)
    requires !a.RunWorker? && !a.RaiseInWorker? && !a.CrashWorker?
    ensures Settled(cfg, Apply(cfg, s, a), job, status)
  {
    if a.RunDispatcher? || a.RunDelivery? { OutboxLegsFrame(cfg, s, a); }
    else if !a.Cancel? { CallersFrame(cfg, s, a); }
  }

  lemma ApplyKeepsSettled(cfg: Config, s: State, a: Action, job: nat, status: JobStatus)
    requires Inv(cfg, s) && Settled(cfg, s, job, status)
    ensures Settled(cfg, Apply(cfg, s, a), job, status)
  {
    if a.RunWorker? || a.RaiseInWorker? || a.CrashWorker? {
      if a.worker < |s.workers| { WorkerActionKeepsSettled(cfg, s, a.worker, a, job, status); }
    } else {
      if job in s.owners { assert OwnerOk(s.jobs, s.workers, job, s.owners[job]); }
      OutsideActionKeepsSettled(cfg, s, a, job, status);
    }
  }

  lemma {:induction false} RunKeepsSettled(cfg: Config, s: State, run: seq<Action>, job: nat, status: JobStatus)
    requires Inv(cfg, s) && Settled(cfg, s, job, status)
    ensures Settled(cfg, Run(cfg, s, run), job, status)
    decreases |run|
  {
    if run != [] {
      ApplyKeepsInv(cfg, s, run[0]);
      ApplyKeepsSettled(cfg, s, run[0], job, status);
      RunKeepsSettled(cfg, Apply(cfg, s, run[0]), run[1..], job, status);
    }
  }

  /** The owner's remaining steps up to its next status write. */
  function NextWrite(s: State, job: nat): seq<Action>
    requires job in s.owners && s.owners[job] < |s.workers|
  {
    var w := s.owners[job];
    var step := RunWorker(w, FinishPipeline(0));
    match s.workers[w].pc
    case InPipeline => [step, step, step]
    case AtCancelCheck(_) => [step, step]
    case _ => [step]
  }

  lemma RunThree(cfg: Config, s: State, a: Action)
    ensures Run(cfg, s, [a]) == Apply(cfg, s, a)
    ensures Run(cfg, s, [a, a]) == Apply(cfg, Apply(cfg, s, a), a)
    ensures Run(cfg, s, [a, a, a]) == Apply(cfg, Apply(cfg, Apply(cfg, s, a), a), a)
  {
    assert [a][1..] == [] && [a, a][1..] == [a] && [a, a, a][1..] == [a, a];
    var s1 := Apply(cfg, s, a);
    var s2 := Apply(cfg, s1, a);
    assert Run(cfg, s, [a]) == Run(cfg, s1, []) && Run(cfg, s1, [a]) == Run(cfg, s2, []);
    assert Run(cfg, s2, [a]) == Run(cfg, Apply(cfg, s2, a), []);
    assert Run(cfg, s1, [a, a]) == Run(cfg, s2, [a]);
  }

  lemma OverwritableIsOverwritten(cfg: Config, s: State, job: nat)
    requires Inv(cfg, s) && Overwritable(cfg, s, job)
    ensures StatusAt(Run(cfg, s, NextWrite(s, job)), job) != StatusAt(s, job)
  {
    var w := s.owners[job];
    assert OwnerOk(s.jobs, s.workers, job, w);
    assert WorkerOk(s.jobs, s.owners, w, s.workers[w]);
    NextWriteRuns(cfg, s, job);
    AfterWriteStatusDiffers(cfg, s, job, w);
  }

  lemma WriteChangesStatus(cfg: Config, s: State, job: nat, w: nat)
    requires Overwritable(cfg, s, job) && Owns(s.owners, w, job)
    requires OwnerOk(s.jobs, s.workers, job, w) && WorkerOk(s.jobs, s.owners, w, s.workers[w])
    requires !s.workers[w].pc.InPipeline? && !s.workers[w].pc.AtCancelCheck?
    ensures StatusAt(WorkerStep(cfg, s, w, FinishPipeline(0)), job) != StatusAt(s, job)
  {
  }

  lemma CheckThenWriteChangesStatus(cfg: Config, s: State, job: nat, w: nat)
    requires Overwritable(cfg, s, job) && Owns(s.owners, w, job)
    requires OwnerOk(s.jobs, s.workers, job, w) && WorkerOk(s.jobs, s.owners, w, s.workers[w])
    requires s.workers[w].pc.AtCancelCheck?
    ensures var choice := FinishPipeline(0);
      StatusAt(WorkerStep(cfg, WorkerStep(cfg, s, w, choice), w, choice), job) != StatusAt(s, job)
  {
    assert WorkerStep(cfg, s, w, FinishPipeline(0)) == SetPc(s, w, AtValidate(s.workers[w].pc.result));
  }

  lemma FinishThenWriteChangesStatus(cfg: Config, s: State, job: nat, w: nat)
    requires Overwritable(cfg, s, job) && Owns(s.owners, w, job)
    requires OwnerOk(s.jobs, s.workers, job, w) && WorkerOk(s.jobs, s.owners, w, s.workers[w])
    requires s.workers[w].pc.InPipeline?
    ensures var choice := FinishPipeline(0);
      StatusAt(WorkerStep(cfg, WorkerStep(cfg, WorkerStep(cfg, s, w, choice), w, choice), w, choice), job) != StatusAt(s, job)
  {
    assert WorkerStep(cfg, s, w, FinishPipeline(0)) == SetPc(s, w, AtCancelCheck(0));
    assert WorkerStep(cfg, SetPc(s, w, AtCancelCheck(0)), w, FinishPipeline(0)) == SetPc(SetPc(s, w, AtCancelCheck(0)), w, AtValidate(0));
  }

  /** The state after the worker's next write. */
  function AfterWrite(cfg: Config, s: State, w: nat): State
    requires w < |s.workers|
  {
    var choice := FinishPipeline(0);
    match s.workers[w].pc
    case InPipeline => WorkerStep(cfg, WorkerStep(cfg, WorkerStep(cfg, s, w, choice), w, choice), w, choice)
    case AtCancelCheck(_) => WorkerStep(cfg, WorkerStep(cfg, s, w, choice), w, choice)
    case _ => WorkerStep(cfg, s, w, choice)
  }

  lemma WorkerCount(cfg: Config, s: State, w: nat, choice: WorkerChoice)
    requires w < |s.workers|
    ensures |WorkerStep(cfg, s, w, choice).workers| == |s.workers|
  {
  }

  lemma NextWriteRuns(cfg: Config, s: State, job: nat)
    requires job in s.owners && s.owners[job] < |s.workers|
    ensures Run(cfg, s, NextWrite(s, job)) == AfterWrite(cfg, s, s.owners[job])
  {
    var w, choice := s.owners[job], FinishPipeline(0);
    RunThree(cfg, s, RunWorker(w, choice));
    var s1 := WorkerStep(cfg, s, w, choice);
    WorkerCount(cfg, s, w, choice);
    WorkerCount(cfg, s1, w, choice);
  }

  lemma AfterWriteStatusDiffers(cfg: Config, s: State, job: nat, w: nat)
    requires Overwritable(cfg, s, job) && Owns(s.owners, w, job)
    requires OwnerOk(s.jobs, s.workers, job, w) && WorkerOk(s.jobs, s.owners, w, s.workers[w])
    ensures StatusAt(AfterWrite(cfg, s, w), job) != StatusAt(s, job)
  {
    match s.workers[w].pc
    case InPipeline => FinishThenWriteChangesStatus(cfg, s, job, w);
    case AtCancelCheck(_) => CheckThenWriteChangesStatus(cfg, s, job, w);
    case _ => WriteChangesStatus(cfg, s, job, w);
  }

  /** A terminal status survives every continuation of the run exactly when the owner has no
      outstanding write over it. So COMPLETED is always permanent; CANCELED is permanent if nobody
      claimed the job, once the owner stopped, and while the owner has its check still ahead; FAILED
      is permanent unless a redelivered message failed while the owner was still at work. */
  lemma TerminalPermanentIff(cfg: Config, run: seq<Action>, job: nat)
    requires job < |After(cfg, run).jobs| && After(cfg, run).jobs[job].status in TERMINAL_JOB_STATES
    ensures (forall more :: StatusAt(Run(cfg, After(cfg, run), more), job) == StatusAt(After(cfg, run), job))
            <==> !Overwritable(cfg, After(cfg, run), job)
  {
    var s := After(cfg, run);
    AfterInv(cfg, run);
    if Overwritable(cfg, s, job) {
      OverwritableIsOverwritten(cfg, s, job);
    } else {
      forall more ensures StatusAt(Run(cfg, s, more), job) == StatusAt(s, job) {
        RunKeepsSettled(cfg, s, more, job, s.jobs[job].status);
      }
    }
  }

  /** A job that is CANCELED with no outstanding write never gets an output. */
  lemma SettledCancelHasNoOutput(cfg: Config, run: seq<Action>, more: seq<Action>, job: nat)
    requires job < |After(cfg, run).jobs| && After(cfg, run).jobs[job].status == Canceled
    requires !Overwritable(cfg, After(cfg, run), job)
    ensures !HasOutput(Run(cfg, After(cfg, run), more).outputs, job)
    ensures !HasRow(Run(cfg, After(cfg, run), more).outbox, job, DeliverResultWebhook)
  {
    var s := After(cfg, run);
    AfterInv(cfg, run);
    RunKeepsInv(cfg, s, more);
    RunKeepsSettled(cfg, s, more, job, Canceled);
    var t := Run(cfg, s, more);
    assert JobResultsOk(t.jobs, t.outputs, t.outbox, job);
  }

  // ------------------------------------------------------------------ growing history

  ghost predicate Grows(s: State, t: State) {
    && s.outputs <= t.outputs
    && s.received <= t.received
    && s.acked <= t.acked
    && s.broker <= t.broker
    && (forall job :: job in s.owners ==> job in t.owners && t.owners[job] == s.owners[job])
  }

  lemma ClaimGrows(s: State, w: nat)
    requires w < |s.workers|
    requires s.workers[w].job in s.owners && s.workers[w].job < |s.jobs| ==> s.jobs[s.workers[w].job].status != Queued
    ensures Grows(s, ClaimStep(s, w))
  {
  }

  lemma FinalGrows(cfg: Config, s: State, w: nat, result: nat)
    requires w < |s.workers|
    ensures Grows(s, FinalStep(cfg, s, w, result))
  {
  }

  lemma WorkerStepGrows(cfg: Config, s: State, w: nat, choice: WorkerChoice)
    requires w < |s.workers|
    requires s.workers[w].job in s.owners && s.workers[w].job < |s.jobs| ==> s.jobs[s.workers[w].job].status != Queued
    ensures Grows(s, WorkerStep(cfg, s, w, choice))
  {
    match s.workers[w].pc
    case AtClaim => ClaimGrows(s, w);
    case AtRetrieve => assert Grows(s, RetrieveStep(s, w));
    case AtCancelCheck(result) => assert Grows(s, CancelCheckStep(s, w, result));
    case AtFinal(result) => FinalGrows(cfg, s, w, result);
    case AtHandler => assert Grows(s, HandlerStep(s, w));
    case _ =>
  }

  lemma ApplyGrows(cfg: Config, s: State, a: Action)
    requires Inv(cfg, s)
    ensures Grows(s, Apply(cfg, s, a))
  {
    if a.RunWorker? {
      if a.worker < |s.workers| {
        var job := s.workers[a.worker].job;
        if job in s.owners { assert OwnerOk(s.jobs, s.workers, job, s.owners[job]); }
        WorkerStepGrows(cfg, s, a.worker, a.workerChoice);
      }
    } else {
      OutsideActionGrows(cfg, s, a);
    }
  }

  lemma OutboxActionGrows(cfg: Config, s: State, a: Action)
    requires a.RunDispatcher? || a.RunDelivery?
    ensures Grows(s, Apply(cfg, s, a))
  {
    OutboxLegsFrame(cfg, s, a);
  }

  lemma OutsideActionGrows(cfg: Config, s: State, a: Action)
    requires !a.RunWorker?
    ensures Grows(s, Apply(cfg, s, a))
  {
    if a.RunDispatcher? || a.RunDelivery? { OutboxActionGrows(cfg, s, a); }
    else if !a.Cancel? && !a.RaiseInWorker? && !a.CrashWorker? { CallersFrame(cfg, s, a); }
  }

  /** Outputs, handovers and acknowledgements are never taken back, and a job never changes owner. */
  lemma {:induction false} RunGrows(cfg: Config, s: State, run: seq<Action>)
    requires Inv(cfg, s)
    ensures Grows(s, Run(cfg, s, run))
    decreases |run|
  {
    if run != [] {
      ApplyKeepsInv(cfg, s, run[0]);
      ApplyGrows(cfg, s, run[0]);
      RunGrows(cfg, Apply(cfg, s, run[0]), run[1..]);
    }
  }

  // ------------------------------------------------------------------ delivery

  /** A DISPATCHED process event was accepted by the broker, a DISPATCHED webhook was acknowledged by
      Django, who received its payload; both stay true in every continuation, even when the row
      itself goes back to PENDING. */
  lemma DispatchedWasHandedOver(cfg: Config, run: seq<Action>, more: seq<Action>, e: nat)
    requires e < |After(cfg, run).outbox| && After(cfg, run).outbox[e].status == Dispatched
    ensures var row, t := After(cfg, run).outbox[e], Run(cfg, After(cfg, run), more);
      && (row.eventType == ProcessAiJob ==> ProcessTask(row.job) in t.broker)
      && (row.eventType == DeliverResultWebhook ==> e in t.acked && Received(t.received, e))
  {
    AfterInv(cfg, run);
    var s := After(cfg, run);
    assert HandedOver(s.outbox[e], e, s.broker, s.acked);
    RunGrows(cfg, s, more);
    RunKeepsInv(cfg, s, more);
  }

  /** What a receiver that keys on the event id keeps: the first payload of each event. */
  function Materialised(received: seq<Payload>): map<nat, Payload> {
    if received == [] then map[]
    else
      var before := Materialised(received[..|received| - 1]);
      var p := received[|received| - 1];
      if p.eventId in before then before else before[p.eventId := p]
  }

  lemma {:induction false} MaterialisedIsReceived(received: seq<Payload>)
    ensures forall e :: e in Materialised(received) <==> Received(received, e)
    ensures forall e :: e in Materialised(received) ==> Materialised(received)[e] in received && Materialised(received)[e].eventId == e
    decreases |received|
  {
    if received != [] {
      var init, p := received[..|received| - 1], received[|received| - 1];
      MaterialisedIsReceived(init);
      assert received == init + [p];
      forall e ensures e in Materialised(received) <==> Received(received, e) {
        if Received(init, e) {
          var k :| 0 <= k < |init| && init[k].eventId == e;
          assert received[k].eventId == e;
        }
        if Received(received, e) {
          var k :| 0 <= k < |received| && received[k].eventId == e;
          if k < |init| { assert init[k].eventId == e; }
        }
        assert received[|received| - 1].eventId == p.eventId;
      }
    }
  }

  /** Every materialised payload is the one payload of its webhook row. */
  ghost predicate AllPayloads(s: State, m: map<nat, Payload>) {
    forall e :: e in m ==> m[e].eventId == e && IsPayloadOf(s.jobs, s.outputs, s.outbox, m[e])
  }

  lemma MaterialisedArePayloads(cfg: Config, run: seq<Action>)
    ensures AllPayloads(After(cfg, run), Materialised(After(cfg, run).received))
  {
    AfterInv(cfg, run);
    MaterialisedIsReceived(After(cfg, run).received);
  }

  /** What the receiver holds for an event is what every send of the event carried. */
  ghost predicate EverySendAgrees(received: seq<Payload>, m: map<nat, Payload>) {
    forall k :: 0 <= k < |received| ==> received[k].eventId in m && m[received[k].eventId] == received[k]
  }

  lemma SendsAgree(cfg: Config, run: seq<Action>)
    ensures EverySendAgrees(After(cfg, run).received, Materialised(After(cfg, run).received))
  {
    AfterInv(cfg, run);
    MaterialisedArePayloads(cfg, run);
    var s := After(cfg, run);
    MaterialisedIsReceived(s.received);
    forall k | 0 <= k < |s.received|
      ensures s.received[k].eventId in Materialised(s.received) && Materialised(s.received)[s.received[k].eventId] == s.received[k]
    {
      assert Received(s.received, s.received[k].eventId);
      assert IsPayloadOf(s.jobs, s.outputs, s.outbox, s.received[k]);
    }
  }

  /** Each materialised event has a COMPLETED job, its one stored result, and no second event. */
  ghost predicate OncePerJob(s: State, m: map<nat, Payload>) {
    && (forall e :: e in m ==> e < |s.outbox| && s.outbox[e].job < |s.jobs| && s.jobs[s.outbox[e].job].status == Completed)
    && (forall e, f :: e in m && f in m && s.outbox[e].job == s.outbox[f].job ==> e == f)
    && (forall e :: e in m ==> OutputRow(s.outbox[e].job, m[e].result) in s.outputs)
  }

  lemma PayloadsAreOncePerJob(s: State, m: map<nat, Payload>)
    requires AllPayloads(s, m) && UniqueRows(s.outbox)
    ensures OncePerJob(s, m)
  {
    forall e, f | e in m && f in m && s.outbox[e].job == s.outbox[f].job ensures e == f {
      assert IsPayloadOf(s.jobs, s.outputs, s.outbox, m[e]) && IsPayloadOf(s.jobs, s.outputs, s.outbox, m[f]);
    }
  }

  /** Every send of one webhook row carries the same payload, so keying on the event id loses nothing;
      and all events of one job are one event, so each job materialises at most once, with its one
      stored result. */
  lemma ResultsMaterialiseAtMostOnce(cfg: Config, run: seq<Action>)
    ensures EverySendAgrees(After(cfg, run).received, Materialised(After(cfg, run).received))
    ensures OncePerJob(After(cfg, run), Materialised(After(cfg, run).received))
  {
    SendsAgree(cfg, run);
    MaterialisedArePayloads(cfg, run);
    CompletedIffOutputIffWebhook(cfg, run);
    PayloadsAreOncePerJob(After(cfg, run), Materialised(After(cfg, run).received));
  }

  // ------------------------------------------------------------------ no loss

  /** A row left alone is claimable, after a recovery pass, once more than the larger of the lock
      timeout and the retry cap has gone by. */
  lemma UndispatchedBecomesClaimable(cfg: Config, run: seq<Action>, e: nat, t: nat)
    requires e < |After(cfg, run).outbox| && After(cfg, run).outbox[e].status != Dispatched
    requires t > After(cfg, run).outbox[e].updatedAt + Max(cfg.settings.lockTimeout, cfg.settings.retryMax)
    ensures IsAvailable(RecoveredRow(After(cfg, run).outbox[e], t, cfg.settings.lockTimeout), t)
  {
    AfterInv(cfg, run);
    var s := After(cfg, run);
    assert RowOk(s.outbox[e], s.now, cfg.settings.retryMax, multiset(s.claims)[e]);
  }

  /** Such a row is taken by the next dispatch round, unless a whole batch of older rows goes first. */
  lemma UndispatchedIsClaimedInTurn(cfg: Config, run: seq<Action>, e: nat, t: nat)
    requires e < |After(cfg, run).outbox| && After(cfg, run).outbox[e].status != Dispatched
    requires t > After(cfg, run).outbox[e].updatedAt + Max(cfg.settings.lockTimeout, cfg.settings.retryMax)
    ensures var outbox := After(cfg, run).outbox;
      var ids := ClaimQuery(RecoveredRows(outbox, t, cfg.settings.lockTimeout), t, cfg.settings.batchSize, {}, 0);
      e in ids
      || (|ids| == cfg.settings.batchSize
          && forall k :: 0 <= k < |ids| ==> ids[k] < e && outbox[ids[k]].createdAt <= outbox[e].createdAt)
  {
    AfterInv(cfg, run);
    UndispatchedBecomesClaimable(cfg, run, e, t);
    var rows := RecoveredRows(After(cfg, run).outbox, t, cfg.settings.lockTimeout);
    ClaimQueryTakesOldest(rows, t, cfg.settings.batchSize, {}, 0);
    var ids := ClaimQuery(rows, t, cfg.settings.batchSize, {}, 0);
    assert Claimable(rows, t, {}, e);
    if e !in ids {
      if |ids| < cfg.settings.batchSize { ShortClaimIsComplete(rows, t, cfg.settings.batchSize, 0, e); }
    }
  }

  /** A query that returns fewer rows than its limit has returned every claimable row. */
  lemma {:induction false} ShortClaimIsComplete(rows: seq<Row>, now: nat, limit: nat, start: nat, e: nat)
    requires start <= e < |rows| && Claimable(rows, now, {}, e)
    requires |ClaimQuery(rows, now, limit, {}, start)| < limit
    ensures e in ClaimQuery(rows, now, limit, {}, start)
    decreases |rows| - start
  {
    if IsAvailable(rows[start], now) {
      if start < e {
        ShortClaimIsComplete(rows, now, limit - 1, start + 1, e);
      }
    } else {
      ShortClaimIsComplete(rows, now, limit, start + 1, e);
    }
  }

  /** `locked_at` is set exactly while DISPATCHING and attempts count the claims. */
  lemma LocksAndAttempts(cfg: Config, run: seq<Action>, e: nat)
    requires e < |After(cfg, run).outbox|
    ensures var s := After(cfg, run);
      && (s.outbox[e].lockedAt.Some? <==> s.outbox[e].status == Dispatching)
      && (s.outbox[e].status == Dispatched ==> s.outbox[e].dispatchedAt.Some?)
      && s.outbox[e].attemptCount == multiset(s.claims)[e]
  {
    AfterInv(cfg, run);
    var s := After(cfg, run);
    assert RowOk(s.outbox[e], s.now, cfg.settings.retryMax, multiset(s.claims)[e]);
  }

  /** A generated result is never lost: a COMPLETED job has one webhook row, and either Django has
      acknowledged it or it becomes claimable again. */
  lemma CompletedResultIsDeliveredOrRetried(cfg: Config, run: seq<Action>, job: nat) returns (e: nat)
    requires job < |After(cfg, run).jobs| && After(cfg, run).jobs[job].status == Completed
    ensures var s := After(cfg, run);
      && e < |s.outbox| && s.outbox[e].job == job && s.outbox[e].eventType == DeliverResultWebhook
      && ((e in s.acked && Received(s.received, e))
          || forall t :: t > s.outbox[e].updatedAt + Max(cfg.settings.lockTimeout, cfg.settings.retryMax)
                         ==> IsAvailable(RecoveredRow(s.outbox[e], t, cfg.settings.lockTimeout), t))
  {
    AfterInv(cfg, run);
    var s := After(cfg, run);
    assert JobResultsOk(s.jobs, s.outputs, s.outbox, job);
    e :| 0 <= e < |s.outbox| && s.outbox[e].job == job && s.outbox[e].eventType == DeliverResultWebhook;
    if s.outbox[e].status == Dispatched {
      DispatchedWasHandedOver(cfg, run, [], e);
    } else {
      forall t: nat | t > s.outbox[e].updatedAt + Max(cfg.settings.lockTimeout, cfg.settings.retryMax)
        ensures IsAvailable(RecoveredRow(s.outbox[e], t, cfg.settings.lockTimeout), t)
      {
        UndispatchedBecomesClaimable(cfg, run, e, t);
      }
    }
  }

  // ------------------------------------------------------------------ creation

  predicate Answered(c: Creator, job: nat) {
    c.pc == Returned(Created(job)) || c.pc == Returned(Existing(job))
  }

  function ScopeOf(c: Creator): string { BuildScope(c.user, c.client) }

  ghost predicate UniqueScopes(jobs: seq<JobRow>) {
    forall i, j :: 0 <= i < j < |jobs| ==> jobs[i].scope != jobs[j].scope
  }

  /** However create_job calls interleave, each scope has at most one job, created by at most one call. */
  lemma OneJobPerScope(cfg: Config, run: seq<Action>)
    ensures UniqueScopes(After(cfg, run).jobs)
    ensures forall c, d, job: nat :: 0 <= c < d < |After(cfg, run).creators| && CreatedJob(After(cfg, run).creators[c], job)
              ==> !CreatedJob(After(cfg, run).creators[d], job)
  {
    AfterInv(cfg, run);
  }

  /** Two answered callers have the same job exactly when they share a scope, and then their inputs
      hash alike; a caller that met a conflict has another input than every answered caller of its
      scope, and some job of that scope exists. */
  lemma AnswersAgreeWithScopes(cfg: Config, run: seq<Action>, c: Creator, d: Creator)
    requires c in After(cfg, run).creators && d in After(cfg, run).creators
    ensures forall i, j :: Answered(c, i) && Answered(d, j) ==> (i == j <==> ScopeOf(c) == ScopeOf(d))
    ensures forall i, j :: Answered(c, i) && Answered(d, j) && i == j ==> c.inputHash == d.inputHash
    ensures forall j :: c.pc == Returned(IdempotencyConflict) && Answered(d, j) && ScopeOf(c) == ScopeOf(d)
              ==> c.inputHash != d.inputHash
    ensures c.pc == Returned(IdempotencyConflict) ==> HasScope(After(cfg, run).jobs, ScopeOf(c))
  {
    AfterInv(cfg, run);
    var jobs := After(cfg, run).jobs;
    assert CreatorOk(jobs, c) && CreatorOk(jobs, d);
    assert UniqueScopes(jobs);
  }

  /** Callers whose client ids contain no ':' get the same job exactly when they are the same user
      asking for the same client id. */
  lemma SameJobIffSameCaller(cfg: Config, run: seq<Action>, c: Creator, d: Creator, i: nat, j: nat)
    requires c in After(cfg, run).creators && d in After(cfg, run).creators
    requires Answered(c, i) && Answered(d, j) && ':' !in c.client && ':' !in d.client
    ensures i == j <==> c.user == d.user && c.client == d.client
  {
    AnswersAgreeWithScopes(cfg, run, c, d);
    if i == j {
      ScopeInjectiveOnColonFreeClients(c.user, c.client, d.user, d.client);
    }
  }
}
