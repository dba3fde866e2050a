/** The durable job protocol as a transition system: API callers, workers, outbox dispatchers and
    webhook handlers over one database, a broker that may duplicate messages, and Django.

    Every action is one committed transaction or one external effect, so any interleaving of the
    processes is a sequence of actions, and a process that is never scheduled again has crashed.
    An action that is not enabled leaves the state alone. */
module Protocol {
  import opened Basics
  import opened JobStateMachine
  import opened OutboxRows
  import opened Idempotency

  // ------------------------------------------------------------------ tables

  /** `scope` is the unique idempotency hash, `client` the backend request id, `prompt` stands for
      the prompt name, version and checksum that the pipeline records. */
  datatype JobRow = JobRow(scope: string, client: string, inputHash: nat, status: JobStatus, prompt: nat)

  datatype OutputRow = OutputRow(job: nat, result: nat)

  datatype JobKey = ClientKey(client: string) | OwnKey(job: nat)

  datatype Payload = Payload(eventId: nat, jobKey: JobKey, result: nat, prompt: nat)

  datatype Task = ProcessTask(job: nat) | WebhookTask(eventId: nat)

  // ------------------------------------------------------------------ processes

  datatype WorkerPc =
    | AtClaim
    | AtRetrieve
    | InPipeline
    | AtCancelCheck(result: nat)
    | AtValidate(result: nat)
    | AtFinal(result: nat)
    | AtMetrics
    | AtHandler
    | Stopped

  /** `cached` is the status in the worker's own job object. Its writes are decided by this copy,
      not by the committed row. */
  datatype Worker = Worker(job: nat, cached: JobStatus, pc: WorkerPc)

  datatype DispatcherPc = AtRecover | AtClaimRows | AtEnqueue | AtMark | AtRelease(error: string) | DispatcherDone

  datatype DispatcherProc = DispatcherProc(events: seq<nat>, pc: DispatcherPc)

  datatype DeliveryPc = AtRead | AtSend(payload: Payload) | AtMarkSent | AtReleaseSent(error: string) | DeliveryDone

  datatype Delivery = Delivery(eventId: nat, pc: DeliveryPc)

  datatype CreateResult = Created(job: nat) | Existing(job: nat) | IdempotencyConflict | IntegrityErrorRaised

  datatype CreatorPc = AtSelect | AtInsert | AtReread | Returned(result: CreateResult)

  datatype Creator = Creator(user: string, client: string, inputHash: nat, pc: CreatorPc)

  /** `owners` records which worker claimed a job, `entries` every entry into a pipeline body,
      `claims` every claim of an outbox row, `guardTrips` every ValueError of a webhook handler. */
  datatype State = State(
    now: nat,
    jobs: seq<JobRow>,
    outputs: seq<OutputRow>,
    outbox: seq<Row>,
    workers: seq<Worker>,
    dispatchers: seq<DispatcherProc>,
    deliveries: seq<Delivery>,
    creators: seq<Creator>,
    broker: set<Task>,
    received: seq<Payload>,
    acked: set<nat>,
    owners: map<nat, nat>,
    entries: seq<nat>,
    claims: seq<nat>,
    guardTrips: nat)

  /** `refresh` says whether the second locked read of a worker overwrites the job object already
      held by its session. Every result below holds for both values unless it names one. */
  datatype Config = Config(settings: Settings, refresh: bool)

  function Init(): State {
    State(0, [], [], [], [], [], [], [], {}, [], {}, map[], [], [], 0)
  }

  // ------------------------------------------------------------------ table lookups

  predicate HasOutput(outputs: seq<OutputRow>, job: nat) {
    exists o :: 0 <= o < |outputs| && outputs[o].job == job
  }

  predicate HasRow(outbox: seq<Row>, job: nat, eventType: EventType) {
    exists i :: 0 <= i < |outbox| && outbox[i].job == job && outbox[i].eventType == eventType
  }

  function FindOutput(outputs: seq<OutputRow>, job: nat): (r: Option<OutputRow>)
    ensures r.Some? <==> HasOutput(outputs, job)
    ensures r.Some? ==> r.value in outputs && r.value.job == job
  {
    if outputs == [] then None
    else if outputs[0].job == job then Some(outputs[0])
    else
      var r := FindOutput(outputs[1..], job);
      assert forall o :: 1 <= o < |outputs| ==> outputs[o] == outputs[1..][o - 1];
      r
  }

  function FindJob(jobs: seq<JobRow>, scope: string, start: nat := 0): (r: Option<nat>)
    requires start <= |jobs|
    ensures r.Some? ==> start <= r.value < |jobs| && jobs[r.value].scope == scope
    ensures r.None? ==> forall j :: start <= j < |jobs| ==> jobs[j].scope != scope
    decreases |jobs| - start
  {
    if start == |jobs| then None
    else if jobs[start].scope == scope then Some(start)
    else FindJob(jobs, scope, start + 1)
  }

  function WithStatus(jobs: seq<JobRow>, job: nat, status: JobStatus): seq<JobRow> {
    if job < |jobs| then jobs[job := jobs[job].(status := status)] else jobs
  }

  // ------------------------------------------------------------------ create_job

  function ExistingResult(jobs: seq<JobRow>, job: nat, inputHash: nat): CreateResult
    requires job < |jobs|
  {
    if jobs[job].inputHash != inputHash then IdempotencyConflict else Existing(job)
  }

  function SetCreator(s: State, c: nat, pc: CreatorPc): State
    requires c < |s.creators|
  {
    s.(creators := s.creators[c := s.creators[c].(pc := pc)])
  }

  function CreatorStep(s: State, c: nat): State
    requires c < |s.creators|
  {
    var me := s.creators[c];
    var scope := BuildScope(me.user, me.client);
    var found := FindJob(s.jobs, scope, 0);
    match me.pc
    case AtSelect =>
      if found.Some? then SetCreator(s, c, Returned(ExistingResult(s.jobs, found.value, me.inputHash)))
      else SetCreator(s, c, AtInsert)
    case AtInsert =>
      // The unique idempotency hash rejects a second insert of the same scope.
      if found.Some? then SetCreator(s, c, AtReread)
      else
        var job := |s.jobs|;
        SetCreator(s, c, Returned(Created(job))).(
          jobs := s.jobs + [JobRow(scope, me.client, me.inputHash, Queued, 0)],
          outbox := s.outbox + [NewRow(job, ProcessAiJob, s.now)])
    case AtReread =>
      if found.Some? then SetCreator(s, c, Returned(ExistingResult(s.jobs, found.value, me.inputHash)))
      else SetCreator(s, c, Returned(IntegrityErrorRaised))
    case Returned(_) => s
  }

  // ------------------------------------------------------------------ cancel_job_by_client_id

  /** `job` is the row the database returned for the client id. */
  function CancelStep(s: State, client: string, job: nat): State {
    if job < |s.jobs| && s.jobs[job].client == client && s.jobs[job].status !in TERMINAL_JOB_STATES then
      s.(jobs := WithStatus(s.jobs, job, Canceled))
    else s
  }

  // ------------------------------------------------------------------ process_job

  /** Inside the pipeline a worker may commit prompt metadata any number of times before it returns
      a result. */
  datatype WorkerChoice = RecordPrompt(prompt: nat) | FinishPipeline(result: nat)

  function SetPc(s: State, w: nat, pc: WorkerPc): State
    requires w < |s.workers|
  {
    s.(workers := s.workers[w := s.workers[w].(pc := pc)])
  }

  /** `_transition`: the state machine judges the cached copy, and an accepted change is committed
      over whatever the row now holds. */
  function WriteStatus(s: State, w: nat, target: JobStatus, next: WorkerPc): State
    requires w < |s.workers|
  {
    var me := s.workers[w];
    if !Accepts(me.cached, target) then SetPc(s, w, AtHandler)
    else if me.cached == target then SetPc(s, w, next)
    else s.(jobs := WithStatus(s.jobs, me.job, target),
            workers := s.workers[w := Worker(me.job, target, next)])
  }

  function ClaimStep(s: State, w: nat): State
    requires w < |s.workers|
  {
    var me := s.workers[w];
    if me.job >= |s.jobs| || s.jobs[me.job].status != Queued then SetPc(s, w, Stopped)
    else
      var read := s.(workers := s.workers[w := Worker(me.job, Queued, AtClaim)]);
      WriteStatus(read, w, Preparing, AtRetrieve).(owners := s.owners[me.job := w])
  }

  /** The last transaction: locked read, checks, then output, webhook row and COMPLETED together. */
  function FinalStep(cfg: Config, s: State, w: nat, result: nat): State
    requires w < |s.workers|
  {
    var me := s.workers[w];
    if me.job >= |s.jobs| then SetPc(s, w, Stopped)
    else
      var view := if cfg.refresh then s.jobs[me.job].status else me.cached;
      var seesOutput := cfg.refresh && HasOutput(s.outputs, me.job);
      if view == Canceled || seesOutput || view == Completed then SetPc(s, w, Stopped)
      else if !Accepts(view, Completed) then SetPc(s, w, AtHandler)
      else
        s.(jobs := WithStatus(s.jobs, me.job, Completed),
           outputs := s.outputs + [OutputRow(me.job, result)],
           outbox := s.outbox + [NewRow(me.job, DeliverResultWebhook, s.now)],
           workers := s.workers[w := Worker(me.job, Completed, AtMetrics)])
  }

  function RetrieveStep(s: State, w: nat): State
    requires w < |s.workers|
  {
    var next := WriteStatus(s, w, Retrieving, InPipeline);
    if next.workers[w].pc == InPipeline then next.(entries := s.entries + [s.workers[w].job]) else next
  }

  function PromptStep(s: State, job: nat, prompt: nat): State {
    if job < |s.jobs| then s.(jobs := s.jobs[job := s.jobs[job].(prompt := prompt)]) else s
  }

  function CancelCheckStep(s: State, w: nat, result: nat): State
    requires w < |s.workers|
  {
    var job := s.workers[w].job;
    if job < |s.jobs| && s.jobs[job].status == Canceled then SetPc(s, w, Stopped) else SetPc(s, w, AtValidate(result))
  }

  /** A new session, hence a fresh read of the row under its lock. */
  function HandlerStep(s: State, w: nat): State
    requires w < |s.workers|
  {
    var job := s.workers[w].job;
    if job < |s.jobs| && s.jobs[job].status !in TERMINAL_JOB_STATES then
      SetPc(s, w, Stopped).(jobs := WithStatus(s.jobs, job, Failed))
    else SetPc(s, w, Stopped)
  }

  function WorkerStep(cfg: Config, s: State, w: nat, choice: WorkerChoice): State
    requires w < |s.workers|
  {
    match s.workers[w].pc
    case AtClaim => ClaimStep(s, w)
    case AtRetrieve => RetrieveStep(s, w)
    case InPipeline =>
      (match choice
       case RecordPrompt(prompt) => PromptStep(s, s.workers[w].job, prompt)
       case FinishPipeline(result) => SetPc(s, w, AtCancelCheck(result)))
    case AtCancelCheck(result) => CancelCheckStep(s, w, result)
    case AtValidate(result) => WriteStatus(s, w, Validating, AtFinal(result))
    case AtFinal(result) => FinalStep(cfg, s, w, result)
    case AtMetrics => SetPc(s, w, Stopped)
    case AtHandler => HandlerStep(s, w)
    case Stopped => s
  }

  function WorkerRaise(s: State, w: nat): State
    requires w < |s.workers|
  {
    if s.workers[w].pc == AtHandler || s.workers[w].pc == Stopped then s else SetPc(s, w, AtHandler)
  }

  // ------------------------------------------------------------------ dispatch_pending

  /** The broker may accept a message and the publisher may still see an error. */
  datatype EnqueueOutcome = Accepted | AcceptedButRaised(error: string) | Refused(error: string)

  datatype DispatcherChoice = DispatcherChoice(skipped: set<nat>, outcome: EnqueueOutcome)

  function TaskOf(outbox: seq<Row>, eventId: nat): Task
    requires eventId < |outbox|
  {
    if outbox[eventId].eventType == ProcessAiJob then ProcessTask(outbox[eventId].job) else WebhookTask(eventId)
  }

  function SetDispatcher(s: State, d: nat, events: seq<nat>, pc: DispatcherPc): State
    requires d < |s.dispatchers|
  {
    s.(dispatchers := s.dispatchers[d := DispatcherProc(events, pc)])
  }

  function EnqueueStep(s: State, d: nat, outcome: EnqueueOutcome): State
    requires d < |s.dispatchers|
  {
    var events := s.dispatchers[d].events;
    if events == [] || events[0] >= |s.outbox| then SetDispatcher(s, d, events, DispatcherDone)
    else
      var task := TaskOf(s.outbox, events[0]);
      match outcome
      case Refused(error) => SetDispatcher(s, d, events, AtRelease(error))
      case AcceptedButRaised(error) => SetDispatcher(s, d, events, AtRelease(error)).(broker := s.broker + {task})
      case Accepted =>
        if task.ProcessTask? then SetDispatcher(s, d, events, AtMark).(broker := s.broker + {task})
        else SetDispatcher(s, d, events[1..], AtEnqueue).(broker := s.broker + {task})
  }

  function RecoverStep(cfg: Config, s: State, d: nat): State
    requires d < |s.dispatchers|
  {
    SetDispatcher(s, d, [], AtClaimRows).(outbox := RecoveredRows(s.outbox, s.now, cfg.settings.lockTimeout))
  }

  function ClaimRowsStep(cfg: Config, s: State, d: nat, skipped: set<nat>): State
    requires d < |s.dispatchers|
  {
    var ids := ClaimQuery(s.outbox, s.now, cfg.settings.batchSize, skipped, 0);
    SetDispatcher(s, d, ids, AtEnqueue).(outbox := ClaimedRows(s.outbox, ids, s.now), claims := s.claims + ids)
  }

  /** mark_dispatched and release_for_retry on the dispatcher's current event. */
  function MarkStep(s: State, d: nat): State
    requires d < |s.dispatchers|
  {
    var events := s.dispatchers[d].events;
    if events == [] || events[0] >= |s.outbox| then SetDispatcher(s, d, events, DispatcherDone)
    else SetDispatcher(s, d, events[1..], AtEnqueue).(
           outbox := s.outbox[events[0] := MarkedRow(s.outbox[events[0]], s.now)])
  }

  function ReleaseStep(cfg: Config, s: State, d: nat, error: string): State
    requires d < |s.dispatchers|
  {
    var events := s.dispatchers[d].events;
    if events == [] || events[0] >= |s.outbox| then SetDispatcher(s, d, events, DispatcherDone)
    else SetDispatcher(s, d, events[1..], AtEnqueue).(
           outbox := s.outbox[events[0] := ReleasedRow(s.outbox[events[0]], s.now, cfg.settings.retryMax, error)])
  }

  function DispatcherStep(cfg: Config, s: State, d: nat, choice: DispatcherChoice): State
    requires d < |s.dispatchers|
  {
    match s.dispatchers[d].pc
    case AtRecover => RecoverStep(cfg, s, d)
    case AtClaimRows => ClaimRowsStep(cfg, s, d, choice.skipped)
    case AtEnqueue => EnqueueStep(s, d, choice.outcome)
    case AtMark => MarkStep(s, d)
    case AtRelease(error) => ReleaseStep(cfg, s, d, error)
    case DispatcherDone => s
  }

  // ------------------------------------------------------------------ deliver_result_webhook

  /** Django may process a request whose answer never arrives; an acknowledged one it has processed.
      Only an application error reaches the retry branch of the handler. */
  datatype SendOutcome = Acknowledged | AppErrorSeen(processed: bool, error: string) | HandlerDied(processed: bool)

  function BuildPayload(jobs: seq<JobRow>, output: OutputRow, eventId: nat, job: nat): Payload
    requires job < |jobs|
  {
    Payload(eventId, if jobs[job].client != "" then ClientKey(jobs[job].client) else OwnKey(job),
            output.result, jobs[job].prompt)
  }

  function SetDelivery(s: State, v: nat, pc: DeliveryPc): State
    requires v < |s.deliveries|
  {
    s.(deliveries := s.deliveries[v := s.deliveries[v].(pc := pc)])
  }

  function ReadStep(s: State, v: nat): State
    requires v < |s.deliveries|
  {
    var e := s.deliveries[v].eventId;
    if e >= |s.outbox| || s.outbox[e].status == Dispatched then SetDelivery(s, v, DeliveryDone)
    else if s.outbox[e].eventType != DeliverResultWebhook then
      SetDelivery(s, v, DeliveryDone).(guardTrips := s.guardTrips + 1)
    else
      var job := s.outbox[e].job;
      var output := FindOutput(s.outputs, job);
      if job >= |s.jobs| || s.jobs[job].status != Completed || output.None? then
        SetDelivery(s, v, DeliveryDone).(guardTrips := s.guardTrips + 1)
      else
        SetDelivery(s, v, AtSend(BuildPayload(s.jobs, output.value, e, job)))
  }

  function SendStep(s: State, v: nat, p: Payload, outcome: SendOutcome): State
    requires v < |s.deliveries|
  {
    match outcome
    case Acknowledged =>
      SetDelivery(s, v, AtMarkSent).(received := s.received + [p], acked := s.acked + {s.deliveries[v].eventId})
    case AppErrorSeen(processed, error) =>
      SetDelivery(s, v, AtReleaseSent(error)).(received := if processed then s.received + [p] else s.received)
    case HandlerDied(processed) =>
      SetDelivery(s, v, DeliveryDone).(received := if processed then s.received + [p] else s.received)
  }

  function MarkSentStep(s: State, v: nat): State
    requires v < |s.deliveries|
  {
    var e := s.deliveries[v].eventId;
    if e >= |s.outbox| then SetDelivery(s, v, DeliveryDone)
    else SetDelivery(s, v, DeliveryDone).(outbox := s.outbox[e := MarkedRow(s.outbox[e], s.now)])
  }

  function ReleaseSentStep(cfg: Config, s: State, v: nat, error: string): State
    requires v < |s.deliveries|
  {
    var e := s.deliveries[v].eventId;
    if e >= |s.outbox| then SetDelivery(s, v, DeliveryDone)
    else SetDelivery(s, v, DeliveryDone).(
           outbox := s.outbox[e := ReleasedRow(s.outbox[e], s.now, cfg.settings.retryMax, error)])
  }

  function DeliveryStep(cfg: Config, s: State, v: nat, outcome: SendOutcome): State
    requires v < |s.deliveries|
  {
    match s.deliveries[v].pc
    case AtRead => ReadStep(s, v)
    case AtSend(p) => SendStep(s, v, p, outcome)
    case AtMarkSent => MarkSentStep(s, v)
    case AtReleaseSent(error) => ReleaseSentStep(cfg, s, v, error)
    case DeliveryDone => s
  }

  // ------------------------------------------------------------------ the whole system

  /** The broker keeps every accepted message and may hand it out any number of times. */
  function DeliverTask(s: State, task: Task): State {
    if task !in s.broker then s
    else
      match task
      case ProcessTask(job) => s.(workers := s.workers + [Worker(job, Queued, AtClaim)])
      case WebhookTask(e) => s.(deliveries := s.deliveries + [Delivery(e, AtRead)])
  }

  datatype Action =
    | Tick(seconds: nat)
    | SubmitCreate(user: string, client: string, inputHash: nat)
    | RunCreator(creator: nat)
    | Cancel(client: string, job: nat)
    | Redeliver(task: Task)
    | RunWorker(worker: nat, workerChoice: WorkerChoice)
    | RaiseInWorker(worker: nat)
    | CrashWorker(worker: nat)
    | StartDispatcher
    | RunDispatcher(dispatcher: nat, dispatcherChoice: DispatcherChoice)
    | RunDelivery(delivery: nat, sendOutcome: SendOutcome)

  function Apply(cfg: Config, s: State, a: Action): State {
    match a
    case Tick(seconds) => s.(now := s.now + seconds)
    case SubmitCreate(user, client, inputHash) =>
      s.(creators := s.creators + [Creator(user, client, inputHash, AtSelect)])
    case RunCreator(c) => if c < |s.creators| then CreatorStep(s, c) else s
    case Cancel(client, job) => CancelStep(s, client, job)
    case Redeliver(task) => DeliverTask(s, task)
    case RunWorker(w, choice) => if w < |s.workers| then WorkerStep(cfg, s, w, choice) else s
    case RaiseInWorker(w) => if w < |s.workers| then WorkerRaise(s, w) else s
    case CrashWorker(w) => if w < |s.workers| then SetPc(s, w, Stopped) else s
    case StartDispatcher => s.(dispatchers := s.dispatchers + [DispatcherProc([], AtRecover)])
    case RunDispatcher(d, choice) => if d < |s.dispatchers| then DispatcherStep(cfg, s, d, choice) else s
    case RunDelivery(v, outcome) => if v < |s.deliveries| then DeliveryStep(cfg, s, v, outcome) else s
  }

  function Run(cfg: Config, s: State, run: seq<Action>): State
    decreases |run|
  {
    if run == [] then s else Run(cfg, Apply(cfg, s, run[0]), run[1..])
  }

  lemma {:induction false} RunSnoc(cfg: Config, s: State, run: seq<Action>, a: Action)
    ensures Run(cfg, s, run + [a]) == Apply(cfg, Run(cfg, s, run), a)
    decreases |run|
  {
    if run == [] {
      assert Run(cfg, s, [a]) == Run(cfg, Apply(cfg, s, a), []);
      assert run + [a] == [a];
    } else {
      assert (run + [a])[1..] == run[1..] + [a];
      RunSnoc(cfg, Apply(cfg, s, run[0]), run[1..], a);
    }
  }

  /** The state after a whole run from the empty database. */
  function After(cfg: Config, run: seq<Action>): State {
    Run(cfg, Init(), run)
  }
}
