/** What the data in the tables and in the payloads is: results come from the pipeline, prompts from its last
    record, keys from the caller, and every single action does to a row what its source says. */
module ProtocolResults {
  import opened Basics
  import opened JobStateMachine
  import opened OutboxRows
  import opened Protocol
  import opened ProtocolInvariant
  import opened ProtocolPreservation
  import opened ProtocolTheorems

  // ------------------------------------------------------------------ where results come from

  /** The worker's pipeline body for the job is running. */
  predicate InBody(s: State, w: nat, job: nat) {
    w < |s.workers| && s.workers[w].pc == InPipeline && s.workers[w].job == job && Owns(s.owners, w, job)
  }

  /** At step k of the run worker w's pipeline body for the job returns x. */
  ghost predicate ReturnedAt(cfg: Config, run: seq<Action>, k: nat, w: nat, job: nat, x: nat) {
    k < |run| && run[k] == RunWorker(w, FinishPipeline(x)) && InBody(After(cfg, run[..k]), w, job)
  }

  ghost predicate Returns(cfg: Config, run: seq<Action>, w: nat, job: nat, x: nat) {
    exists k: nat :: ReturnedAt(cfg, run, k, w, job, x)
  }

  lemma ReturnsStay(cfg: Config, run: seq<Action>, a: Action, w: nat, job: nat, x: nat)
    requires Returns(cfg, run, w, job, x)
    ensures Returns(cfg, run + [a], w, job, x)
  {
    var k: nat :| ReturnedAt(cfg, run, k, w, job, x);
    assert (run + [a])[..k] == run[..k] && (run + [a])[k] == run[k];
    assert ReturnedAt(cfg, run + [a], k, w, job, x);
  }

  lemma ReturnsNow(cfg: Config, run: seq<Action>, w: nat, job: nat, x: nat)
    requires InBody(After(cfg, run), w, job)
    ensures Returns(cfg, run + [RunWorker(w, FinishPipeline(x))], w, job, x)
  {
    var more := run + [RunWorker(w, FinishPipeline(x))];
    assert more[..|run|] == run;
    assert ReturnedAt(cfg, more, |run|, w, job, x);
  }

  /** The result that a worker carries from its pipeline to its last transaction. */
  function Carried(pc: WorkerPc): Option<nat> {
    match pc
    case AtCancelCheck(x) => Some(x)
    case AtValidate(x) => Some(x)
    case AtFinal(x) => Some(x)
    case _ => None
  }

  /** A worker's step carries the result on, takes it from the pipeline, or drops it; only a worker at its last
      transaction stores one, its own, for its job. */
  ghost predicate CarriesOn(s: State, t: State, w: nat, choice: WorkerChoice)
    requires w < |s.workers|
  {
    && w < |t.workers| && t.workers[w].job == s.workers[w].job
    && (Carried(t.workers[w].pc).Some? ==>
          || Carried(t.workers[w].pc) == Carried(s.workers[w].pc)
          || (s.workers[w].pc == InPipeline && choice == FinishPipeline(Carried(t.workers[w].pc).value)))
    && (t.outputs == s.outputs
        || (s.workers[w].pc.AtFinal? && t.outputs == s.outputs + [OutputRow(s.workers[w].job, s.workers[w].pc.result)]))
  }

  lemma WorkerCarriesOn(cfg: Config, s: State, w: nat, choice: WorkerChoice)
    requires w < |s.workers|
    ensures CarriesOn(s, WorkerStep(cfg, s, w, choice), w, choice)
  {
    match s.workers[w].pc
    case AtClaim => assert CarriesOn(s, ClaimStep(s, w), w, choice);
    case AtRetrieve => assert CarriesOn(s, RetrieveStep(s, w), w, choice);
    case AtCancelCheck(x) => assert CarriesOn(s, CancelCheckStep(s, w, x), w, choice);
    case AtValidate(x) => assert CarriesOn(s, WriteStatus(s, w, Validating, AtFinal(x)), w, choice);
    case AtFinal(x) => assert CarriesOn(s, FinalStep(cfg, s, w, x), w, choice);
    case AtHandler => assert CarriesOn(s, HandlerStep(s, w), w, choice);
    case _ =>
  }

  /** Only a worker's own step stores an output. */
  lemma OthersStoreNothing(cfg: Config, s: State, a: Action)
    requires !a.RunWorker?
    ensures Apply(cfg, s, a).outputs == s.outputs
  {
    if a.RunDispatcher? || a.RunDelivery? { OutboxLegsFrame(cfg, s, a); }
    else if !a.Cancel? && !a.RaiseInWorker? && !a.CrashWorker? { CallersFrame(cfg, s, a); }
  }

  /** A step of the worker itself: what it carries afterwards its pipeline has returned. */
  lemma OwnStepIsReturned(cfg: Config, run: seq<Action>, w: nat, choice: WorkerChoice, x: nat)
    requires w < |After(cfg, run).workers|
    requires Carried(After(cfg, run).workers[w].pc) == Some(x) ==> Returns(cfg, run, w, After(cfg, run).workers[w].job, x)
    requires Carried(WorkerStep(cfg, After(cfg, run), w, choice).workers[w].pc) == Some(x)
    ensures Returns(cfg, run + [RunWorker(w, choice)], w, After(cfg, run).workers[w].job, x)
  {
    var s := After(cfg, run);
    WorkerCarriesOn(cfg, s, w, choice);
    if Carried(s.workers[w].pc) == Some(x) {
      ReturnsStay(cfg, run, RunWorker(w, choice), w, s.workers[w].job, x);
    } else {
      AfterInv(cfg, run);
      assert WorkerOk(s.jobs, s.owners, w, s.workers[w]);
      ReturnsNow(cfg, run, w, s.workers[w].job, x);
    }
  }

  lemma AfterSnoc(cfg: Config, run: seq<Action>)
    requires run != []
    ensures run == run[..|run| - 1] + [run[|run| - 1]]
    ensures After(cfg, run) == Apply(cfg, After(cfg, run[..|run| - 1]), run[|run| - 1])
  {
    assert run == run[..|run| - 1] + [run[|run| - 1]];
    RunSnoc(cfg, Init(), run[..|run| - 1], run[|run| - 1]);
  }

  /** A worker that an action brings into being carries nothing. */
  lemma NewWorkerCarriesNothing(cfg: Config, s: State, a: Action, w: nat)
    requires |s.workers| <= w < |Apply(cfg, s, a).workers|
    ensures Apply(cfg, s, a).workers[w].pc == AtClaim
  {
    if a.RunDispatcher? || a.RunDelivery? { OutboxLegsFrame(cfg, s, a); }
    else if a.RunWorker? { WorkerCount(cfg, s, a.worker, a.workerChoice); }
    else if a.RunCreator? { CallersFrame(cfg, s, a); }
  }

  /** What a worker carries to its last transaction its pipeline has returned. */
  lemma {:induction false} CarriedIsReturned(cfg: Config, run: seq<Action>, w: nat, x: nat)
    requires w < |After(cfg, run).workers| && Carried(After(cfg, run).workers[w].pc) == Some(x)
    ensures Returns(cfg, run, w, After(cfg, run).workers[w].job, x)
    decreases |run|
  {
    if run != [] {
      var init, a := run[..|run| - 1], run[|run| - 1];
      var s := After(cfg, init);
      AfterSnoc(cfg, run);
      if w >= |s.workers| {
        NewWorkerCarriesNothing(cfg, s, a, w);
      } else if !ActsFor(a, w) {
        OthersLeaveWorker(cfg, s, a, w);
        CarriedIsReturned(cfg, init, w, x);
        ReturnsStay(cfg, init, a, w, s.workers[w].job, x);
      } else if a.RunWorker? {
        if Carried(s.workers[w].pc) == Some(x) { CarriedIsReturned(cfg, init, w, x); }
        WorkerCarriesOn(cfg, s, w, a.workerChoice);
        OwnStepIsReturned(cfg, init, w, a.workerChoice, x);
      }
    }
  }

  ghost predicate OwnerReturned(cfg: Config, run: seq<Action>, job: nat, x: nat) {
    exists w: nat :: Owns(After(cfg, run).owners, w, job) && Returns(cfg, run, w, job, x)
  }

  lemma OwnerReturnedStays(cfg: Config, run: seq<Action>, a: Action, job: nat, x: nat)
    requires OwnerReturned(cfg, run, job, x)
    ensures OwnerReturned(cfg, run + [a], job, x)
  {
    var w: nat :| Owns(After(cfg, run).owners, w, job) && Returns(cfg, run, w, job, x);
    AfterInv(cfg, run);
    RunSnoc(cfg, Init(), run, a);
    ApplyGrows(cfg, After(cfg, run), a);
    ReturnsStay(cfg, run, a, w, job, x);
    assert Owns(After(cfg, run + [a]).owners, w, job);
  }

  /** The output that a worker's step stores is what its pipeline returned. */
  lemma StoredIsReturned(cfg: Config, run: seq<Action>, w: nat, choice: WorkerChoice, o: OutputRow)
    requires w < |After(cfg, run).workers|
    requires o in WorkerStep(cfg, After(cfg, run), w, choice).outputs && o !in After(cfg, run).outputs
    ensures OwnerReturned(cfg, run, o.job, o.result)
  {
    var s := After(cfg, run);
    AfterInv(cfg, run);
    WorkerCarriesOn(cfg, s, w, choice);
    CarriedIsReturned(cfg, run, w, o.result);
    assert WorkerOk(s.jobs, s.owners, w, s.workers[w]);
  }

  /** Every stored result is what the pipeline of the job's owner returned, at some step of the run, inside its
      body for that job. */
  lemma {:induction false} OutputIsReturned(cfg: Config, run: seq<Action>, o: OutputRow)
    requires o in After(cfg, run).outputs
    ensures OwnerReturned(cfg, run, o.job, o.result)
    decreases |run|
  {
    if run != [] {
      var init, a := run[..|run| - 1], run[|run| - 1];
      var s := After(cfg, init);
      AfterSnoc(cfg, run);
      if !a.RunWorker? { OthersStoreNothing(cfg, s, a); }
      if o in s.outputs {
        OutputIsReturned(cfg, init, o);
      } else {
        StoredIsReturned(cfg, init, a.worker, a.workerChoice, o);
      }
      OwnerReturnedStays(cfg, init, a, o.job, o.result);
    }
  }

  // ------------------------------------------------------------------ prompts and callers

  /** The action records a prompt for the job. */
  predicate Records(s: State, a: Action, job: nat) {
    a.RunWorker? && a.workerChoice.RecordPrompt? && a.worker < |s.workers|
    && s.workers[a.worker].pc == InPipeline && s.workers[a.worker].job == job
  }

  /** The prompt last recorded for the job in a run, if any. */
  function LastPrompt(cfg: Config, run: seq<Action>, job: nat): nat {
    if run == [] then 0
    else
      var init, a := run[..|run| - 1], run[|run| - 1];
      if Records(After(cfg, init), a, job) then a.workerChoice.prompt else LastPrompt(cfg, init, job)
  }

  /** Who asked for a job never changes, and its prompt only by a record. */
  ghost predicate KeepsMetadata(s: State, a: Action, t: State) {
    && |s.jobs| <= |t.jobs|
    && forall j :: 0 <= j < |s.jobs| ==>
         && t.jobs[j].client == s.jobs[j].client
         && t.jobs[j].prompt == if Records(s, a, j) then a.workerChoice.prompt else s.jobs[j].prompt
  }

  ghost predicate SameMetadata(jobs: seq<JobRow>, jobs': seq<JobRow>) {
    && |jobs'| == |jobs|
    && forall j :: 0 <= j < |jobs| ==> jobs'[j].client == jobs[j].client && jobs'[j].prompt == jobs[j].prompt
  }

  lemma StatusKeepsMetadata(jobs: seq<JobRow>, job: nat, status: JobStatus)
    ensures SameMetadata(jobs, WithStatus(jobs, job, status))
  {
  }

  /** A step other than a record of a prompt writes a status to the jobs, or nothing. */
  lemma OtherStepsWriteStatus(cfg: Config, s: State, w: nat, choice: WorkerChoice) returns (status: JobStatus)
    requires w < |s.workers| && !(s.workers[w].pc == InPipeline && choice.RecordPrompt?)
    ensures var jobs' := WorkerStep(cfg, s, w, choice).jobs;
      jobs' == s.jobs || jobs' == WithStatus(s.jobs, s.workers[w].job, status)
  {
    status := match s.workers[w].pc
      case AtClaim => Preparing
      case AtRetrieve => Retrieving
      case AtValidate(_) => Validating
      case AtFinal(_) => Completed
      case _ => Failed;
  }

  lemma OtherStepsKeepMetadata(cfg: Config, s: State, w: nat, choice: WorkerChoice)
    requires w < |s.workers| && !(s.workers[w].pc == InPipeline && choice.RecordPrompt?)
    ensures SameMetadata(s.jobs, WorkerStep(cfg, s, w, choice).jobs)
  {
    var status := OtherStepsWriteStatus(cfg, s, w, choice);
    StatusKeepsMetadata(s.jobs, s.workers[w].job, status);
  }

  lemma WorkerKeepsMetadata(cfg: Config, s: State, w: nat, choice: WorkerChoice)
    requires w < |s.workers|
    ensures KeepsMetadata(s, RunWorker(w, choice), WorkerStep(cfg, s, w, choice))
    ensures |WorkerStep(cfg, s, w, choice).jobs| == |s.jobs|
  {
    if s.workers[w].pc == InPipeline && choice.RecordPrompt? {
      assert WorkerStep(cfg, s, w, choice) == PromptStep(s, s.workers[w].job, choice.prompt);
    } else {
      OtherStepsKeepMetadata(cfg, s, w, choice);
    }
  }

  lemma ApplyKeepsMetadata(cfg: Config, s: State, a: Action)
    ensures KeepsMetadata(s, a, Apply(cfg, s, a))
  {
    if a.RunWorker? { if a.worker < |s.workers| { WorkerKeepsMetadata(cfg, s, a.worker, a.workerChoice); } }
    else if a.RunDispatcher? || a.RunDelivery? { OutboxLegsFrame(cfg, s, a); }
    else if !a.Cancel? && !a.RaiseInWorker? && !a.CrashWorker? { CallersFrame(cfg, s, a); }
  }

  lemma {:induction false} NothingRecordedYet(cfg: Config, run: seq<Action>, job: nat)
    requires job >= |After(cfg, run).jobs|
    ensures LastPrompt(cfg, run, job) == 0
    decreases |run|
  {
    if run != [] {
      var init, a := run[..|run| - 1], run[|run| - 1];
      var s := After(cfg, init);
      AfterSnoc(cfg, run);
      ApplyKeepsMetadata(cfg, s, a);
      AfterInv(cfg, init);
      if a.RunWorker? && a.worker < |s.workers| { assert WorkerOk(s.jobs, s.owners, a.worker, s.workers[a.worker]); }
      NothingRecordedYet(cfg, init, job);
    }
  }

  /** A job that an action brings into being is QUEUED, has no prompt and belongs to the caller that asked. */
  lemma NewJobIs(cfg: Config, s: State, a: Action, job: nat)
    requires |s.jobs| <= job < |Apply(cfg, s, a).jobs|
    ensures a.RunCreator? && a.creator < |s.creators| && job == |s.jobs|
    ensures var me, t := s.creators[a.creator], Apply(cfg, s, a);
      && t.jobs[job].status == Queued && t.jobs[job].prompt == 0
      && t.jobs[job].client == me.client && t.jobs[job].inputHash == me.inputHash
      && t.creators == s.creators[a.creator := me.(pc := Returned(Created(job)))]
  {
    if a.RunDispatcher? || a.RunDelivery? { OutboxLegsFrame(cfg, s, a); }
    else if a.RunWorker? { if a.worker < |s.workers| { WorkerKeepsMetadata(cfg, s, a.worker, a.workerChoice); } }
  }

  /** What a row is when it is added: an event of that job, due at once and never tried. */
  ghost predicate IsNewRow(r: Row, job: nat, eventType: EventType, now: nat) {
    && r.job == job && r.eventType == eventType && r.status == Pending && r.attemptCount == 0
    && r.createdAt == now && r.availableAt == now && r.lockedAt == None && r.dispatchedAt == None && r.lastError == None
  }

  lemma WorkerAddsRow(cfg: Config, s: State, w: nat, choice: WorkerChoice)
    requires w < |s.workers| && WorkerStep(cfg, s, w, choice).outbox != s.outbox
    ensures var t, job := WorkerStep(cfg, s, w, choice), s.workers[w].job;
      && |t.outbox| == |s.outbox| + 1 && IsNewRow(t.outbox[|s.outbox|], job, DeliverResultWebhook, s.now)
      && s.workers[w].pc.AtFinal? && t.outputs == s.outputs + [OutputRow(job, s.workers[w].pc.result)]
  {
  }

  lemma LegsAddNoRow(cfg: Config, s: State, a: Action)
    requires a.RunDispatcher? || a.RunDelivery?
    ensures |Apply(cfg, s, a).outbox| == |s.outbox|
  {
  }

  /** A row is added for a process event with its job, and for a webhook with the output it delivers. */
  lemma NewRowIs(cfg: Config, s: State, a: Action, e: nat)
    requires |s.outbox| <= e < |Apply(cfg, s, a).outbox|
    ensures e == |s.outbox|
    ensures var t := Apply(cfg, s, a);
      || (a.RunCreator? && |t.jobs| == |s.jobs| + 1 && IsNewRow(t.outbox[e], |s.jobs|, ProcessAiJob, s.now))
      || (a.RunWorker? && a.worker < |s.workers| && s.workers[a.worker].pc.AtFinal?
          && t.outputs == s.outputs + [OutputRow(s.workers[a.worker].job, s.workers[a.worker].pc.result)]
          && IsNewRow(t.outbox[e], s.workers[a.worker].job, DeliverResultWebhook, s.now))
  {
    if a.RunDispatcher? || a.RunDelivery? { LegsAddNoRow(cfg, s, a); }
    else if a.RunWorker? { WorkerAddsRow(cfg, s, a.worker, a.workerChoice); }
  }

  /** The prompt columns of a job are those last recorded for it. */
  lemma {:induction false} PromptIsLastRecorded(cfg: Config, run: seq<Action>, job: nat)
    requires job < |After(cfg, run).jobs|
    ensures After(cfg, run).jobs[job].prompt == LastPrompt(cfg, run, job)
    decreases |run|
  {
    if run != [] {
      var init, a := run[..|run| - 1], run[|run| - 1];
      var s := After(cfg, init);
      AfterSnoc(cfg, run);
      ApplyKeepsMetadata(cfg, s, a);
      if job < |s.jobs| {
        PromptIsLastRecorded(cfg, init, job);
      } else {
        NewJobIs(cfg, s, a, job);
        NothingRecordedYet(cfg, init, job);
      }
    }
  }

  /** Callers that were answered stay so. */
  lemma AnswersStay(cfg: Config, s: State, a: Action, c: nat)
    requires c < |s.creators| && s.creators[c].pc.Returned?
    ensures c < |Apply(cfg, s, a).creators| && Apply(cfg, s, a).creators[c] == s.creators[c]
  {
    if a.RunWorker? { if a.worker < |s.workers| { CreatorsUntouched(cfg, s, a.worker, a.workerChoice); } }
    else if a.RunDispatcher? { if a.dispatcher < |s.dispatchers| { DispatcherLeavesCreators(cfg, s, a.dispatcher, a.dispatcherChoice); } }
    else if a.RunDelivery? { if a.delivery < |s.deliveries| { DeliveryLeavesCreators(cfg, s, a.delivery, a.sendOutcome); } }
  }

  lemma CreatorsUntouched(cfg: Config, s: State, w: nat, choice: WorkerChoice)
    requires w < |s.workers|
    ensures WorkerStep(cfg, s, w, choice).creators == s.creators
  {
  }

  lemma DispatcherLeavesCreators(cfg: Config, s: State, d: nat, choice: DispatcherChoice)
    requires d < |s.dispatchers|
    ensures DispatcherStep(cfg, s, d, choice).creators == s.creators
  {
  }

  lemma DeliveryLeavesCreators(cfg: Config, s: State, v: nat, outcome: SendOutcome)
    requires v < |s.deliveries|
    ensures DeliveryStep(cfg, s, v, outcome).creators == s.creators
  {
  }

  /** The job was created by this caller and carries its client id. */
  predicate Originates(s: State, job: nat, c: nat) {
    c < |s.creators| && job < |s.jobs| && CreatedJob(s.creators[c], job) && s.jobs[job].client == s.creators[c].client
  }

  lemma {:induction false} JobHasCaller(cfg: Config, run: seq<Action>, job: nat) returns (c: nat)
    requires job < |After(cfg, run).jobs|
    ensures Originates(After(cfg, run), job, c)
    decreases |run|
  {
    assert run != [];
    var init, a := run[..|run| - 1], run[|run| - 1];
    var s := After(cfg, init);
    AfterSnoc(cfg, run);
    if job < |s.jobs| {
      c := JobHasCaller(cfg, init, job);
      ApplyKeepsMetadata(cfg, s, a);
      AnswersStay(cfg, s, a, c);
    } else {
      NewJobIs(cfg, s, a, job);
      c := a.creator;
    }
  }

  // ------------------------------------------------------------------ what Django is told

  /** Everything Django receives about a job names it by its caller's client id, if there is one, and carries
      the prompt last recorded for it and the result its pipeline returned. */
  lemma PayloadTellsTheJob(cfg: Config, run: seq<Action>, p: Payload) returns (c: nat)
    requires p in After(cfg, run).received
    ensures var s := After(cfg, run);
      && p.eventId < |s.outbox| && s.outbox[p.eventId].eventType == DeliverResultWebhook
      && var job := s.outbox[p.eventId].job;
      && Originates(s, job, c)
      && p.jobKey == (if s.creators[c].client != "" then ClientKey(s.creators[c].client) else OwnKey(job))
      && p.prompt == LastPrompt(cfg, run, job)
      && OwnerReturned(cfg, run, job, p.result)
  {
    var s := After(cfg, run);
    AfterInv(cfg, run);
    assert IsPayloadOf(s.jobs, s.outputs, s.outbox, p);
    var job := s.outbox[p.eventId].job;
    c := JobHasCaller(cfg, run, job);
    PromptIsLastRecorded(cfg, run, job);
    OutputIsReturned(cfg, run, FindOutput(s.outputs, job).value);
  }

  // ------------------------------------------------------------------ what single actions do

  /** A cancel changes a non-terminal job of that client to CANCELED, every other row not at all, and a terminal
      job or another client's job never. */
  lemma CancelDoes(cfg: Config, s: State, client: string, job: nat)
    requires job < |s.jobs|
    ensures var t := Apply(cfg, s, Cancel(client, job));
      && t == s.(jobs := t.jobs) && |t.jobs| == |s.jobs|
      && (forall j :: 0 <= j < |s.jobs| && j != job ==> t.jobs[j] == s.jobs[j])
      && (if s.jobs[job].client == client && s.jobs[job].status != Completed && s.jobs[job].status != Failed
          then t.jobs[job] == s.jobs[job].(status := Canceled) else t.jobs[job] == s.jobs[job])
  {
  }

  /** The failure handler changes its non-terminal job to FAILED and nothing else. */
  lemma HandlerDoes(cfg: Config, s: State, w: nat, choice: WorkerChoice)
    requires w < |s.workers| && s.workers[w].pc == AtHandler && s.workers[w].job < |s.jobs|
    ensures var t, job := Apply(cfg, s, RunWorker(w, choice)), s.workers[w].job;
      && |t.jobs| == |s.jobs| && (forall j :: 0 <= j < |s.jobs| && j != job ==> t.jobs[j] == s.jobs[j])
      && (if s.jobs[job].status == Completed || s.jobs[job].status == Canceled then t.jobs[job] == s.jobs[job]
          else t.jobs[job] == s.jobs[job].(status := Failed))
      && t.workers[w].pc == Stopped
  {
    assert Apply(cfg, s, RunWorker(w, choice)) == HandlerStep(s, w);
  }

  /** A handler whose send was acknowledged has delivered its payload and goes on to mark the row. */
  lemma AcknowledgedSendDoes(cfg: Config, s: State, v: nat, p: Payload)
    requires v < |s.deliveries| && s.deliveries[v].pc == AtSend(p) && s.deliveries[v].eventId < |s.outbox|
    ensures var e := s.deliveries[v].eventId;
      var t := Apply(cfg, s, RunDelivery(v, Acknowledged));
      var u := Apply(cfg, t, RunDelivery(v, Acknowledged));
      && t.received == s.received + [p] && t.acked == s.acked + {e} && t.outbox == s.outbox
      && |u.outbox| == |s.outbox| && (forall i :: 0 <= i < |s.outbox| && i != e ==> u.outbox[i] == s.outbox[i])
      && u.outbox[e].status == Dispatched && u.outbox[e].lockedAt == None
      && u.outbox[e].dispatchedAt == Some(s.now) && u.outbox[e].lastError == None
      && u.deliveries[v].pc == DeliveryDone
  {
    var t := Apply(cfg, s, RunDelivery(v, Acknowledged));
    assert t == SendStep(s, v, p, Acknowledged);
    assert Apply(cfg, t, RunDelivery(v, Acknowledged)) == MarkSentStep(t, v);
  }

  /** A handler whose send failed with an application error puts its row back after the backoff. */
  lemma FailedSendDoes(cfg: Config, s: State, v: nat, p: Payload, processed: bool, error: string)
    requires v < |s.deliveries| && s.deliveries[v].pc == AtSend(p) && s.deliveries[v].eventId < |s.outbox|
    ensures var e, a := s.deliveries[v].eventId, RunDelivery(v, AppErrorSeen(processed, error));
      var t := Apply(cfg, s, a);
      var u := Apply(cfg, t, a);
      && t.received == (if processed then s.received + [p] else s.received) && t.acked == s.acked && t.outbox == s.outbox
      && |u.outbox| == |s.outbox| && (forall i :: 0 <= i < |s.outbox| && i != e ==> u.outbox[i] == s.outbox[i])
      && PutBack(s.outbox[e], u.outbox[e], s.now, cfg.settings.retryMax, error)
      && u.deliveries[v].pc == DeliveryDone
  {
    var a := RunDelivery(v, AppErrorSeen(processed, error));
    var t := Apply(cfg, s, a);
    assert t == SendStep(s, v, p, AppErrorSeen(processed, error));
    assert Apply(cfg, t, a) == ReleaseSentStep(cfg, t, v, error);
    ReleasedRowIs(s.outbox[s.deliveries[v].eventId], s.now, cfg.settings.retryMax, error);
  }
}
