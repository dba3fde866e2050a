/** Every action keeps the protocol invariant. */
module ProtocolPreservation {
  import opened Basics
  import opened JobStateMachine
  import opened OutboxRows
  import opened Idempotency
  import opened Protocol
  import opened ProtocolInvariant

  // ------------------------------------------------------------------ workers

  /** A job row changes at most in ways that keep other workers' facts: COMPLETED only if nobody is
      active on it any more, QUEUED never entered. */
  ghost predicate JobsSafeFor(jobs: seq<JobRow>, jobs': seq<JobRow>, j: nat) {
    && |jobs| == |jobs'| && (j < |jobs| ==> jobs' == jobs[j := jobs'[j]])
    && (j >= |jobs| ==> jobs' == jobs)
    && (j < |jobs| && jobs'[j].status == Queued ==> jobs[j].status == Queued)
  }

  lemma WorkerMoves(jobs: seq<JobRow>, jobs': seq<JobRow>, workers: seq<Worker>, owners: map<nat, nat>,
                    entries: seq<nat>, w: nat, me: Worker)
    requires WorkersOk(jobs, workers, owners) && EntriesOk(workers, owners, entries) && w < |workers|
    requires me.job == workers[w].job && me.pc != AtClaim && me.pc != AtRetrieve
    requires JobsSafeFor(jobs, jobs', me.job)
    requires jobs'[me.job].status == Completed ==> jobs == jobs' || (IsActive(workers[w].pc) && !IsActive(me.pc))
    requires IsActive(me.pc) ==>
      IsActive(workers[w].pc) && me.cached == CachedAt(me.pc) && jobs'[me.job].status != Completed
    ensures WorkersOk(jobs', workers[w := me], owners)
    ensures EntriesOk(workers[w := me], owners, entries)
  {
    var workers' := workers[w := me];
    assert WorkerOk(jobs, owners, w, workers[w]);
    forall v | 0 <= v < |workers'| ensures WorkerOk(jobs', owners, v, workers'[v]) {
      assert WorkerOk(jobs, owners, v, workers[v]);
    }
    forall job | job in owners ensures OwnerOk(jobs', workers', job, owners[job]) {
      assert OwnerOk(jobs, workers, job, owners[job]);
    }
  }

  /** What a worker step leaves untouched. */
  ghost predicate SameOutside(s: State, t: State) {
    && t.now == s.now && t.dispatchers == s.dispatchers && t.deliveries == s.deliveries && t.creators == s.creators
    && t.broker == s.broker && t.received == s.received && t.acked == s.acked
    && t.claims == s.claims && t.guardTrips == s.guardTrips
  }

  /** A worker step that leaves every job COMPLETED or not as it was. */
  lemma OpenWorkerStep(cfg: Config, s: State, t: State, j: nat)
    requires Inv(cfg, s) && SameOutside(s, t) && t.outputs == s.outputs && t.outbox == s.outbox
    requires t.jobs == s.jobs || OpenChange(s.jobs, t.jobs, j)
    requires WorkersOk(t.jobs, t.workers, t.owners) && EntriesOk(t.workers, t.owners, t.entries)
    ensures Inv(cfg, t)
  {
    if t.jobs != s.jobs {
      OpenChangeKeepsResults(s.jobs, t.jobs, j, s.outputs, s.outbox);
      OpenChangeKeepsPayloads(s.jobs, t.jobs, j, s.outputs, s.outbox, s.deliveries, s.received, s.acked);
      OpenChangeKeepsCreation(s.jobs, t.jobs, j, s.creators);
      OpenChangeKeepsHandoff(s.jobs, t.jobs, j, s.outbox, s.broker, s.dispatchers, s.deliveries, s.acked);
    }
  }

  lemma PcMoveKeepsInv(cfg: Config, s: State, w: nat, pc: WorkerPc)
    requires Inv(cfg, s) && w < |s.workers|
    requires pc == Stopped || pc == AtHandler
             || (pc.AtCancelCheck? && s.workers[w].pc.InPipeline?) || (pc.AtValidate? && s.workers[w].pc.AtCancelCheck?)
    ensures Inv(cfg, SetPc(s, w, pc))
  {
    assert WorkerOk(s.jobs, s.owners, w, s.workers[w]);
    WorkerMoves(s.jobs, s.jobs, s.workers, s.owners, s.entries, w, s.workers[w].(pc := pc));
    OpenWorkerStep(cfg, s, SetPc(s, w, pc), s.workers[w].job);
  }

  lemma ClaimKeepsInv(cfg: Config, s: State, w: nat)
    requires Inv(cfg, s) && w < |s.workers| && s.workers[w].pc == AtClaim
    ensures Inv(cfg, ClaimStep(s, w))
  {
    var me, t := s.workers[w], ClaimStep(s, w);
    assert WorkerOk(s.jobs, s.owners, w, me);
    if s.jobs[me.job].status != Queued {
      PcMoveKeepsInv(cfg, s, w, Stopped);
    } else {
      forall job | job in s.owners ensures s.jobs[me.job].status == Queued ==> job != me.job {
        assert OwnerOk(s.jobs, s.workers, job, s.owners[job]);
      }
      forall v | 0 <= v < |t.workers| ensures WorkerOk(t.jobs, t.owners, v, t.workers[v]) {
        assert WorkerOk(s.jobs, s.owners, v, s.workers[v]);
      }
      forall job | job in t.owners ensures OwnerOk(t.jobs, t.workers, job, t.owners[job]) {
        if job != me.job { assert OwnerOk(s.jobs, s.workers, job, s.owners[job]); }
      }
      OpenWorkerStep(cfg, s, t, me.job);
    }
  }

  /** The owner of a job enters its pipeline body for the first time. */
  lemma EntryIsNew(workers: seq<Worker>, owners: map<nat, nat>, entries: seq<nat>, w: nat)
    requires w < |workers| && workers[w].pc == AtRetrieve && Owns(owners, w, workers[w].job)
    requires EntriesOk(workers, owners, entries)
    ensures EntriesOk(workers[w := Worker(workers[w].job, Retrieving, InPipeline)], owners, entries + [workers[w].job])
  {
    forall k | 0 <= k < |entries| ensures entries[k] != workers[w].job {
    }
  }

  lemma RetrieveKeepsInv(cfg: Config, s: State, w: nat)
    requires Inv(cfg, s) && w < |s.workers| && s.workers[w].pc == AtRetrieve
    ensures Inv(cfg, RetrieveStep(s, w))
  {
    var me, t := s.workers[w], RetrieveStep(s, w);
    assert WorkerOk(s.jobs, s.owners, w, me);
    var moved := Worker(me.job, Retrieving, InPipeline);
    assert t.workers == s.workers[w := moved] && t.entries == s.entries + [me.job];
    WorkerMoves(s.jobs, t.jobs, s.workers, s.owners, s.entries, w, moved);
    EntryIsNew(s.workers, s.owners, s.entries, w);
    OpenWorkerStep(cfg, s, t, me.job);
  }

  lemma ValidateKeepsInv(cfg: Config, s: State, w: nat, result: nat)
    requires Inv(cfg, s) && w < |s.workers| && s.workers[w].pc == AtValidate(result)
    ensures Inv(cfg, WriteStatus(s, w, Validating, AtFinal(result)))
  {
    var me, t := s.workers[w], WriteStatus(s, w, Validating, AtFinal(result));
    assert WorkerOk(s.jobs, s.owners, w, me);
    assert t == s.(jobs := WithStatus(s.jobs, me.job, Validating), workers := s.workers[w := Worker(me.job, Validating, AtFinal(result))]);
    WorkerMoves(s.jobs, t.jobs, s.workers, s.owners, s.entries, w, Worker(me.job, Validating, AtFinal(result)));
    OpenWorkerStep(cfg, s, t, me.job);
  }

  lemma PromptKeepsInv(cfg: Config, s: State, w: nat, prompt: nat)
    requires Inv(cfg, s) && w < |s.workers| && s.workers[w].pc == InPipeline
    ensures Inv(cfg, PromptStep(s, s.workers[w].job, prompt))
  {
    var me, t := s.workers[w], PromptStep(s, s.workers[w].job, prompt);
    assert WorkerOk(s.jobs, s.owners, w, me);
    WorkerMoves(s.jobs, t.jobs, s.workers, s.owners, s.entries, w, me);
    assert s.workers[w := me] == s.workers;
    OpenWorkerStep(cfg, s, t, me.job);
  }

  lemma HandlerKeepsInv(cfg: Config, s: State, w: nat)
    requires Inv(cfg, s) && w < |s.workers| && s.workers[w].pc == AtHandler
    ensures Inv(cfg, HandlerStep(s, w))
  {
    var me, t := s.workers[w], HandlerStep(s, w);
    assert WorkerOk(s.jobs, s.owners, w, me);
    WorkerMoves(s.jobs, t.jobs, s.workers, s.owners, s.entries, w, me.(pc := Stopped));
    OpenWorkerStep(cfg, s, t, me.job);
  }

  /** The output, the webhook row and COMPLETED appear together, for a job that has neither. */
  lemma FinalCommitKeepsInv(cfg: Config, s: State, w: nat, result: nat)
    requires Inv(cfg, s) && w < |s.workers| && s.workers[w].pc == AtFinal(result)
    requires FinalStep(cfg, s, w, result).workers[w].pc == AtMetrics
    ensures Inv(cfg, FinalStep(cfg, s, w, result))
  {
    var me, t := s.workers[w], FinalStep(cfg, s, w, result);
    assert WorkerOk(s.jobs, s.owners, w, me);
    var row, output := NewRow(me.job, DeliverResultWebhook, s.now), OutputRow(me.job, result);
    assert t.outbox == s.outbox + [row] && t.outputs == s.outputs + [output];
    WorkerMoves(s.jobs, t.jobs, s.workers, s.owners, s.entries, w, Worker(me.job, Completed, AtMetrics));
    AppendedRowKeepsRows(s.outbox, row, s.now, cfg.settings.retryMax, s.claims);
    AppendedRowKeepsHandoff(s.jobs, t.jobs, s.outbox, row, s.broker, s.dispatchers, s.deliveries, s.acked);
    FinalResults(s.jobs, s.outputs, s.outbox, me.job, row, output);
    FinalPayloads(s.jobs, s.outputs, s.outbox, me.job, row, output, s.deliveries, s.received, s.acked);
    forall c | 0 <= c < |s.creators| ensures CreatorOk(t.jobs, s.creators[c]) {
      CreatorStaysOk(s.jobs, t.jobs, s.creators[c]);
    }
  }

  lemma FinalResults(jobs: seq<JobRow>, outputs: seq<OutputRow>, outbox: seq<Row>, j: nat, row: Row, output: OutputRow)
    requires ResultsOk(jobs, outputs, outbox) && j < |jobs| && jobs[j].status != Completed
    requires row.job == j && row.eventType == DeliverResultWebhook && output.job == j
    ensures ResultsOk(WithStatus(jobs, j, Completed), outputs + [output], outbox + [row])
  {
    var jobs', outputs', outbox' := WithStatus(jobs, j, Completed), outputs + [output], outbox + [row];
    assert JobResultsOk(jobs, outputs, outbox, j);
    forall job | 0 <= job < |jobs'| ensures JobResultsOk(jobs', outputs', outbox', job) {
      assert JobResultsOk(jobs, outputs, outbox, job);
      AppendedRow(outbox, row, job, ProcessAiJob);
      AppendedRow(outbox, row, job, DeliverResultWebhook);
      AppendedOutput(outputs, output, job);
    }
  }

  lemma FinalPayloads(jobs: seq<JobRow>, outputs: seq<OutputRow>, outbox: seq<Row>, j: nat, row: Row, output: OutputRow,
                      deliveries: seq<Delivery>, received: seq<Payload>, acked: set<nat>)
    requires PayloadsOk(jobs, outputs, outbox, deliveries, received, acked) && j < |jobs| && jobs[j].status != Completed
    ensures PayloadsOk(WithStatus(jobs, j, Completed), outputs + [output], outbox + [row], deliveries, received, acked)
  {
    var jobs', outputs', outbox' := WithStatus(jobs, j, Completed), outputs + [output], outbox + [row];
    forall p | IsPayloadOf(jobs, outputs, outbox, p) ensures IsPayloadOf(jobs', outputs', outbox', p) {
      FindOutputStable(outputs, output, outbox[p.eventId].job);
    }
    forall v | 0 <= v < |deliveries| ensures SendingOk(jobs', outputs', outbox', deliveries[v]) {
      assert SendingOk(jobs, outputs, outbox, deliveries[v]);
    }
  }

  lemma CancelCheckKeepsInv(cfg: Config, s: State, w: nat, result: nat)
    requires Inv(cfg, s) && w < |s.workers| && s.workers[w].pc == AtCancelCheck(result)
    ensures Inv(cfg, CancelCheckStep(s, w, result))
  {
    PcMoveKeepsInv(cfg, s, w, CancelCheckStep(s, w, result).workers[w].pc);
  }

  lemma FinalKeepsInv(cfg: Config, s: State, w: nat, result: nat)
    requires Inv(cfg, s) && w < |s.workers| && s.workers[w].pc == AtFinal(result)
    ensures Inv(cfg, FinalStep(cfg, s, w, result))
  {
    var pc := FinalStep(cfg, s, w, result).workers[w].pc;
    if pc == AtMetrics { FinalCommitKeepsInv(cfg, s, w, result); } else { PcMoveKeepsInv(cfg, s, w, pc); }
  }

  lemma ActiveStepKeepsInv(cfg: Config, s: State, w: nat, choice: WorkerChoice)
    requires Inv(cfg, s) && w < |s.workers| && IsActive(s.workers[w].pc)
    ensures Inv(cfg, WorkerStep(cfg, s, w, choice))
  {
    match s.workers[w].pc
    case AtRetrieve => RetrieveKeepsInv(cfg, s, w);
    case InPipeline =>
      if choice.RecordPrompt? { PromptKeepsInv(cfg, s, w, choice.prompt); }
      else { PcMoveKeepsInv(cfg, s, w, AtCancelCheck(choice.result)); }
    case AtCancelCheck(result) => CancelCheckKeepsInv(cfg, s, w, result);
    case AtValidate(result) => ValidateKeepsInv(cfg, s, w, result);
    case AtFinal(result) => FinalKeepsInv(cfg, s, w, result);
  }

  lemma WorkerStepKeepsInv(cfg: Config, s: State, w: nat, choice: WorkerChoice)
    requires Inv(cfg, s) && w < |s.workers|
    ensures Inv(cfg, WorkerStep(cfg, s, w, choice))
  {
    match s.workers[w].pc
    case AtClaim => ClaimKeepsInv(cfg, s, w);
    case AtMetrics => PcMoveKeepsInv(cfg, s, w, Stopped);
    case AtHandler => HandlerKeepsInv(cfg, s, w);
    case Stopped =>
    case _ => ActiveStepKeepsInv(cfg, s, w, choice);
  }

  // ------------------------------------------------------------------ API callers

  lemma CancelKeepsInv(cfg: Config, s: State, client: string, job: nat)
    requires Inv(cfg, s)
    ensures Inv(cfg, CancelStep(s, client, job))
  {
    var t := CancelStep(s, client, job);
    if t != s {
      forall w | 0 <= w < |t.workers| ensures WorkerOk(t.jobs, t.owners, w, t.workers[w]) {
        assert WorkerOk(s.jobs, s.owners, w, s.workers[w]);
      }
      forall j | j in t.owners ensures OwnerOk(t.jobs, t.workers, j, t.owners[j]) {
        assert OwnerOk(s.jobs, s.workers, j, s.owners[j]);
      }
      OpenWorkerStep(cfg, s, t, job);
    }
  }

  lemma CreatorMoveKeepsCreation(jobs: seq<JobRow>, creators: seq<Creator>, c: nat, me: Creator)
    requires CreationOk(jobs, creators) && c < |creators| && CreatorOk(jobs, me)
    requires forall j :: !CreatedJob(me, j)
    ensures CreationOk(jobs, creators[c := me])
  {
  }

  lemma InsertKeepsResults(jobs: seq<JobRow>, outputs: seq<OutputRow>, outbox: seq<Row>, job: JobRow, row: Row)
    requires ResultsOk(jobs, outputs, outbox) && job.status == Queued
    requires row.job == |jobs| && row.eventType == ProcessAiJob
    ensures ResultsOk(jobs + [job], outputs, outbox + [row])
  {
    forall j | 0 <= j < |jobs + [job]| ensures JobResultsOk(jobs + [job], outputs, outbox + [row], j) {
      if j < |jobs| { assert JobResultsOk(jobs, outputs, outbox, j); }
      AppendedRow(outbox, row, j, ProcessAiJob);
      AppendedRow(outbox, row, j, DeliverResultWebhook);
    }
  }

  lemma InsertKeepsPayloads(jobs: seq<JobRow>, outputs: seq<OutputRow>, outbox: seq<Row>, job: JobRow, row: Row,
                            deliveries: seq<Delivery>, received: seq<Payload>, acked: set<nat>)
    requires PayloadsOk(jobs, outputs, outbox, deliveries, received, acked)
    ensures PayloadsOk(jobs + [job], outputs, outbox + [row], deliveries, received, acked)
  {
    forall v | 0 <= v < |deliveries| ensures SendingOk(jobs + [job], outputs, outbox + [row], deliveries[v]) {
      assert SendingOk(jobs, outputs, outbox, deliveries[v]);
    }
  }

  lemma InsertKeepsCreators(jobs: seq<JobRow>, creators: seq<Creator>, c: nat, job: JobRow)
    requires CreationOk(jobs, creators) && c < |creators|
    requires job.scope == BuildScope(creators[c].user, creators[c].client) && job.inputHash == creators[c].inputHash
    ensures var creators' := creators[c := creators[c].(pc := Returned(Created(|jobs|)))];
      forall d :: 0 <= d < |creators'| ==> CreatorOk(jobs + [job], creators'[d])
  {
    var creators' := creators[c := creators[c].(pc := Returned(Created(|jobs|)))];
    forall d | 0 <= d < |creators'| ensures CreatorOk(jobs + [job], creators'[d]) {
      if d != c { CreatorStaysOk(jobs, jobs + [job], creators[d]); }
    }
  }

  /** Nobody has been answered with the job that is being inserted. */
  lemma InsertIsFirst(jobs: seq<JobRow>, creators: seq<Creator>, d: nat)
    requires CreationOk(jobs, creators) && d < |creators|
    ensures !CreatedJob(creators[d], |jobs|)
  {
    assert CreatorOk(jobs, creators[d]);
  }

  lemma AnsweringOneKeepsCreated(creators: seq<Creator>, c: nat, n: nat)
    requires CreatedOnce(creators) && c < |creators|
    requires forall d :: 0 <= d < |creators| ==> !CreatedJob(creators[d], n)
    ensures CreatedOnce(creators[c := creators[c].(pc := Returned(Created(n)))])
  {
    var creators' := creators[c := creators[c].(pc := Returned(Created(n)))];
    forall d, e, j | 0 <= d < e < |creators'| && CreatedJob(creators'[d], j) ensures !CreatedJob(creators'[e], j) {
      assert d != c ==> CreatedJob(creators[d], j);
      assert e != c ==> creators'[e] == creators[e];
      assert j == n ==> d == c;
    }
  }

  lemma InsertKeepsCreation(jobs: seq<JobRow>, creators: seq<Creator>, c: nat, job: JobRow)
    requires CreationOk(jobs, creators) && c < |creators| && FindJob(jobs, job.scope, 0).None?
    requires job.scope == BuildScope(creators[c].user, creators[c].client) && job.inputHash == creators[c].inputHash
    ensures CreationOk(jobs + [job], creators[c := creators[c].(pc := Returned(Created(|jobs|)))])
  {
    InsertKeepsCreators(jobs, creators, c, job);
    forall d | 0 <= d < |creators| ensures !CreatedJob(creators[d], |jobs|) { InsertIsFirst(jobs, creators, d); }
    AnsweringOneKeepsCreated(creators, c, |jobs|);
  }

  lemma InsertKeepsInv(cfg: Config, s: State, c: nat)
    requires Inv(cfg, s) && c < |s.creators| && s.creators[c].pc == AtInsert
    requires FindJob(s.jobs, BuildScope(s.creators[c].user, s.creators[c].client), 0).None?
    ensures Inv(cfg, CreatorStep(s, c))
  {
    var me, t := s.creators[c], CreatorStep(s, c);
    var job := JobRow(BuildScope(me.user, me.client), me.client, me.inputHash, Queued, 0);
    var row := NewRow(|s.jobs|, ProcessAiJob, s.now);
    assert t.jobs == s.jobs + [job] && t.outbox == s.outbox + [row];
    forall w | 0 <= w < |t.workers| ensures WorkerOk(t.jobs, t.owners, w, t.workers[w]) {
      assert WorkerOk(s.jobs, s.owners, w, s.workers[w]);
    }
    forall j | j in t.owners ensures OwnerOk(t.jobs, t.workers, j, t.owners[j]) {
      assert OwnerOk(s.jobs, s.workers, j, s.owners[j]);
    }
    InsertKeepsResults(s.jobs, s.outputs, s.outbox, job, row);
    InsertKeepsPayloads(s.jobs, s.outputs, s.outbox, job, row, s.deliveries, s.received, s.acked);
    InsertKeepsCreation(s.jobs, s.creators, c, job);
    AppendedRowKeepsRows(s.outbox, row, s.now, cfg.settings.retryMax, s.claims);
    AppendedRowKeepsHandoff(s.jobs, t.jobs, s.outbox, row, s.broker, s.dispatchers, s.deliveries, s.acked);
  }

  lemma CreatorStepKeepsInv(cfg: Config, s: State, c: nat)
    requires Inv(cfg, s) && c < |s.creators|
    ensures Inv(cfg, CreatorStep(s, c))
  {
    var me := s.creators[c];
    var scope := BuildScope(me.user, me.client);
    assert CreatorOk(s.jobs, me);
    if me.pc == AtInsert && FindJob(s.jobs, scope, 0).None? {
      InsertKeepsInv(cfg, s, c);
    } else if !me.pc.Returned? {
      CreatorMoveKeepsCreation(s.jobs, s.creators, c, CreatorStep(s, c).creators[c]);
    }
  }

  // ------------------------------------------------------------------ the outbox legs

  /** A statement that rewrites outbox rows but none of their identities. */
  lemma RowStatementKeepsInv(cfg: Config, s: State, t: State)
    requires Inv(cfg, s) && SameIdentity(s.outbox, t.outbox)
    requires t.jobs == s.jobs && t.outputs == s.outputs && t.workers == s.workers && t.creators == s.creators
    requires t.owners == s.owners && t.entries == s.entries && t.guardTrips == s.guardTrips
    requires RowsOk(t.outbox, t.now, cfg.settings.retryMax, t.claims)
    requires HandoffOk(t.jobs, t.outbox, t.broker, t.dispatchers, t.deliveries, t.acked)
    requires PayloadsOk(t.jobs, t.outputs, s.outbox, t.deliveries, t.received, t.acked)
    ensures Inv(cfg, t)
  {
    IdentityKeepsResults(s.jobs, s.outputs, s.outbox, t.outbox);
    IdentityKeepsPayloads(s.jobs, s.outputs, s.outbox, t.outbox, t.deliveries, t.received, t.acked);
  }

  /** A row statement hands nothing over that was not handed over. */
  lemma RowStatementKeepsHandoff(s: State, outbox: seq<Row>)
    requires HandoffOk(s.jobs, s.outbox, s.broker, s.dispatchers, s.deliveries, s.acked) && SameIdentity(s.outbox, outbox)
    requires forall i :: 0 <= i < |outbox| && outbox[i].status == Dispatched ==>
      s.outbox[i].status == Dispatched || HandedOver(s.outbox[i], i, s.broker, s.acked)
    ensures HandoffOk(s.jobs, outbox, s.broker, s.dispatchers, s.deliveries, s.acked)
  {
    forall task | task in s.broker ensures TaskOk(s.jobs, outbox, task) {
      assert TaskOk(s.jobs, s.outbox, task);
    }
    forall d | 0 <= d < |s.dispatchers| ensures DispatcherOk(outbox, s.broker, s.dispatchers[d]) {
      assert DispatcherOk(s.outbox, s.broker, s.dispatchers[d]);
    }
    forall v | 0 <= v < |s.deliveries| ensures DeliveryOk(outbox, s.acked, s.deliveries[v]) {
      assert DeliveryOk(s.outbox, s.acked, s.deliveries[v]);
    }
  }

  lemma DispatcherMoveKeepsHandoff(jobs: seq<JobRow>, outbox: seq<Row>, broker: set<Task>, dispatchers: seq<DispatcherProc>,
                                   deliveries: seq<Delivery>, acked: set<nat>, d: nat, me: DispatcherProc)
    requires HandoffOk(jobs, outbox, broker, dispatchers, deliveries, acked) && d < |dispatchers|
    requires DispatcherOk(outbox, broker, me)
    ensures HandoffOk(jobs, outbox, broker, dispatchers[d := me], deliveries, acked)
  {
  }

  lemma ClaimKeepsRows(outbox: seq<Row>, ids: seq<nat>, now: nat, retryMax: nat, claims: seq<nat>)
    requires RowsOk(outbox, now, retryMax, claims)
    requires forall k :: 0 <= k < |ids| ==> ids[k] < |outbox| && IsAvailable(outbox[ids[k]], now)
    requires Increasing(ids)
    ensures RowsOk(ClaimedRows(outbox, ids, now), now, retryMax, claims + ids)
  {
    var after := ClaimedRows(outbox, ids, now);
    forall i | 0 <= i < |after|
      ensures RowOk(after[i], now, retryMax, multiset(claims + ids)[i])
    {
      assert RowOk(outbox[i], now, retryMax, multiset(claims)[i]);
      DistinctCount(ids, i);
      assert multiset(claims + ids) == multiset(claims) + multiset(ids);
    }
  }

  lemma {:induction false} DistinctCount(ids: seq<nat>, i: nat)
    requires Increasing(ids)
    ensures multiset(ids)[i] == if i in ids then 1 else 0
    decreases |ids|
  {
    if ids != [] {
      var last, init := ids[|ids| - 1], ids[..|ids| - 1];
      assert ids == init + [last];
      DistinctCount(init, i);
      assert last !in init;
    }
  }

  lemma RecoverKeepsRows(outbox: seq<Row>, now: nat, timeout: nat, retryMax: nat, claims: seq<nat>)
    requires RowsOk(outbox, now, retryMax, claims)
    ensures RowsOk(RecoveredRows(outbox, now, timeout), now, retryMax, claims)
  {
  }

  lemma MarkKeepsRows(outbox: seq<Row>, e: nat, now: nat, retryMax: nat, claims: seq<nat>)
    requires RowsOk(outbox, now, retryMax, claims) && e < |outbox|
    ensures RowsOk(outbox[e := MarkedRow(outbox[e], now)], now, retryMax, claims)
  {
    assert RowOk(outbox[e], now, retryMax, multiset(claims)[e]);
  }

  lemma ReleaseKeepsRows(outbox: seq<Row>, e: nat, now: nat, retryMax: nat, error: string, claims: seq<nat>)
    requires RowsOk(outbox, now, retryMax, claims) && e < |outbox|
    ensures RowsOk(outbox[e := ReleasedRow(outbox[e], now, retryMax, error)], now, retryMax, claims)
  {
    assert RowOk(outbox[e], now, retryMax, multiset(claims)[e]);
  }

  /** Marking a row whose handover has happened, or releasing any row. */
  lemma RowUpdateKeepsInv(cfg: Config, s: State, e: nat, r: Row)
    requires Inv(cfg, s) && e < |s.outbox|
    requires SameIdentity(s.outbox, s.outbox[e := r]) && RowsOk(s.outbox[e := r], s.now, cfg.settings.retryMax, s.claims)
    requires r.status == Dispatched ==> HandedOver(s.outbox[e], e, s.broker, s.acked)
    ensures Inv(cfg, s.(outbox := s.outbox[e := r]))
  {
    RowStatementKeepsHandoff(s, s.outbox[e := r]);
    RowStatementKeepsInv(cfg, s, s.(outbox := s.outbox[e := r]));
  }

  lemma MarkKeepsInv(cfg: Config, s: State, e: nat)
    requires Inv(cfg, s) && e < |s.outbox| && HandedOver(s.outbox[e], e, s.broker, s.acked)
    ensures Inv(cfg, s.(outbox := s.outbox[e := MarkedRow(s.outbox[e], s.now)]))
  {
    MarkKeepsRows(s.outbox, e, s.now, cfg.settings.retryMax, s.claims);
    RowUpdateKeepsInv(cfg, s, e, MarkedRow(s.outbox[e], s.now));
  }

  lemma ReleaseKeepsInv(cfg: Config, s: State, e: nat, error: string)
    requires Inv(cfg, s) && e < |s.outbox|
    ensures Inv(cfg, s.(outbox := s.outbox[e := ReleasedRow(s.outbox[e], s.now, cfg.settings.retryMax, error)]))
  {
    ReleaseKeepsRows(s.outbox, e, s.now, cfg.settings.retryMax, error, s.claims);
    RowUpdateKeepsInv(cfg, s, e, ReleasedRow(s.outbox[e], s.now, cfg.settings.retryMax, error));
  }

  lemma DispatcherMoveKeepsInv(cfg: Config, s: State, d: nat, events: seq<nat>, pc: DispatcherPc)
    requires Inv(cfg, s) && d < |s.dispatchers|
    requires DispatcherOk(s.outbox, s.broker, DispatcherProc(events, pc))
    ensures Inv(cfg, SetDispatcher(s, d, events, pc))
  {
    DispatcherMoveKeepsHandoff(s.jobs, s.outbox, s.broker, s.dispatchers, s.deliveries, s.acked, d, DispatcherProc(events, pc));
  }

  lemma BrokerAcceptsKeepsInv(cfg: Config, s: State, e: nat)
    requires Inv(cfg, s) && e < |s.outbox|
    ensures Inv(cfg, s.(broker := s.broker + {TaskOf(s.outbox, e)}))
  {
    var broker := s.broker + {TaskOf(s.outbox, e)};
    forall task | task in broker ensures TaskOk(s.jobs, s.outbox, task) {
      if task in s.broker { assert TaskOk(s.jobs, s.outbox, task); }
    }
    forall d | 0 <= d < |s.dispatchers| ensures DispatcherOk(s.outbox, broker, s.dispatchers[d]) {
      assert DispatcherOk(s.outbox, s.broker, s.dispatchers[d]);
    }
  }

  lemma RecoverKeepsInv(cfg: Config, s: State)
    requires Inv(cfg, s)
    ensures Inv(cfg, s.(outbox := RecoveredRows(s.outbox, s.now, cfg.settings.lockTimeout)))
  {
    var outbox := RecoveredRows(s.outbox, s.now, cfg.settings.lockTimeout);
    RecoverKeepsRows(s.outbox, s.now, cfg.settings.lockTimeout, cfg.settings.retryMax, s.claims);
    RowStatementKeepsHandoff(s, outbox);
    RowStatementKeepsInv(cfg, s, s.(outbox := outbox));
  }

  lemma ClaimRowsKeepsInv(cfg: Config, s: State, ids: seq<nat>)
    requires Inv(cfg, s)
    requires forall k :: 0 <= k < |ids| ==> ids[k] < |s.outbox| && IsAvailable(s.outbox[ids[k]], s.now)
    requires Increasing(ids)
    ensures Inv(cfg, s.(outbox := ClaimedRows(s.outbox, ids, s.now), claims := s.claims + ids))
  {
    ClaimKeepsRows(s.outbox, ids, s.now, cfg.settings.retryMax, s.claims);
    RowStatementKeepsHandoff(s, ClaimedRows(s.outbox, ids, s.now));
    RowStatementKeepsInv(cfg, s, s.(outbox := ClaimedRows(s.outbox, ids, s.now), claims := s.claims + ids));
  }

  lemma EnqueueKeepsInv(cfg: Config, s: State, d: nat, outcome: EnqueueOutcome)
    requires Inv(cfg, s) && d < |s.dispatchers| && s.dispatchers[d].pc == AtEnqueue
    ensures Inv(cfg, EnqueueStep(s, d, outcome))
  {
    var events := s.dispatchers[d].events;
    assert DispatcherOk(s.outbox, s.broker, s.dispatchers[d]);
    if events == [] {
      DispatcherMoveKeepsInv(cfg, s, d, events, DispatcherDone);
    } else if outcome.Refused? {
      DispatcherMoveKeepsInv(cfg, s, d, events, AtRelease(outcome.error));
    } else {
      BrokerAcceptsKeepsInv(cfg, s, events[0]);
      var t := s.(broker := s.broker + {TaskOf(s.outbox, events[0])});
      var me := EnqueueStep(s, d, outcome).dispatchers[d];
      DispatcherMoveKeepsInv(cfg, t, d, me.events, me.pc);
    }
  }

  lemma RecoverStepKeepsInv(cfg: Config, s: State, d: nat)
    requires Inv(cfg, s) && d < |s.dispatchers|
    ensures Inv(cfg, RecoverStep(cfg, s, d))
  {
    DispatcherMoveKeepsInv(cfg, s, d, [], AtClaimRows);
    RecoverKeepsInv(cfg, SetDispatcher(s, d, [], AtClaimRows));
  }

  lemma ClaimRowsStepKeepsInv(cfg: Config, s: State, d: nat, skipped: set<nat>)
    requires Inv(cfg, s) && d < |s.dispatchers|
    ensures Inv(cfg, ClaimRowsStep(cfg, s, d, skipped))
  {
    var ids := ClaimQuery(s.outbox, s.now, cfg.settings.batchSize, skipped, 0);
    ClaimIsInOrder(s.outbox, s.now, cfg.settings.batchSize, skipped, 0);
    assert forall k :: 0 <= k < |ids| ==> Claimable(s.outbox, s.now, skipped, ids[k]);
    DispatcherMoveKeepsInv(cfg, s, d, ids, AtEnqueue);
    ClaimRowsKeepsInv(cfg, SetDispatcher(s, d, ids, AtEnqueue), ids);
  }

  lemma MarkStepKeepsInv(cfg: Config, s: State, d: nat)
    requires Inv(cfg, s) && d < |s.dispatchers| && s.dispatchers[d].pc == AtMark
    ensures Inv(cfg, MarkStep(s, d))
  {
    var events := s.dispatchers[d].events;
    assert DispatcherOk(s.outbox, s.broker, s.dispatchers[d]);
    DispatcherMoveKeepsInv(cfg, s, d, events[1..], AtEnqueue);
    MarkKeepsInv(cfg, SetDispatcher(s, d, events[1..], AtEnqueue), events[0]);
  }

  lemma ReleaseStepKeepsInv(cfg: Config, s: State, d: nat, error: string)
    requires Inv(cfg, s) && d < |s.dispatchers| && s.dispatchers[d].pc == AtRelease(error)
    ensures Inv(cfg, ReleaseStep(cfg, s, d, error))
  {
    var events := s.dispatchers[d].events;
    assert DispatcherOk(s.outbox, s.broker, s.dispatchers[d]);
    DispatcherMoveKeepsInv(cfg, s, d, events[1..], AtEnqueue);
    ReleaseKeepsInv(cfg, SetDispatcher(s, d, events[1..], AtEnqueue), events[0], error);
  }

  lemma DispatcherStepKeepsInv(cfg: Config, s: State, d: nat, choice: DispatcherChoice)
    requires Inv(cfg, s) && d < |s.dispatchers|
    ensures Inv(cfg, DispatcherStep(cfg, s, d, choice))
  {
    match s.dispatchers[d].pc
    case AtRecover => RecoverStepKeepsInv(cfg, s, d);
    case AtClaimRows => ClaimRowsStepKeepsInv(cfg, s, d, choice.skipped);
    case AtEnqueue => EnqueueKeepsInv(cfg, s, d, choice.outcome);
    case AtMark => MarkStepKeepsInv(cfg, s, d);
    case AtRelease(error) => ReleaseStepKeepsInv(cfg, s, d, error);
    case DispatcherDone =>
  }

  // ------------------------------------------------------------------ the webhook handler

  lemma DeliveryMoveKeepsInv(cfg: Config, s: State, v: nat, pc: DeliveryPc)
    requires Inv(cfg, s) && v < |s.deliveries|
    requires DeliveryOk(s.outbox, s.acked, s.deliveries[v].(pc := pc))
    requires SendingOk(s.jobs, s.outputs, s.outbox, s.deliveries[v].(pc := pc))
    ensures Inv(cfg, SetDelivery(s, v, pc))
  {
  }

  /** The guards of the handler never fire: its row is a webhook row, so the job is COMPLETED and has
      an output. */
  lemma ReadKeepsInv(cfg: Config, s: State, v: nat)
    requires Inv(cfg, s) && v < |s.deliveries| && s.deliveries[v].pc == AtRead
    ensures Inv(cfg, ReadStep(s, v))
  {
    var e := s.deliveries[v].eventId;
    assert DeliveryOk(s.outbox, s.acked, s.deliveries[v]);
    var job := s.outbox[e].job;
    assert HasRow(s.outbox, job, DeliverResultWebhook);
    assert JobResultsOk(s.jobs, s.outputs, s.outbox, job);
    DeliveryMoveKeepsInv(cfg, s, v, DeliveryDone);
    var output := FindOutput(s.outputs, job);
    if s.outbox[e].status != Dispatched {
      DeliveryMoveKeepsInv(cfg, s, v, AtSend(BuildPayload(s.jobs, output.value, e, job)));
    }
  }

  lemma ReceiveKeepsInv(cfg: Config, s: State, v: nat, acked: set<nat>)
    requires Inv(cfg, s) && v < |s.deliveries| && s.deliveries[v].pc.AtSend?
    requires acked == s.acked || acked == s.acked + {s.deliveries[v].eventId}
    ensures Inv(cfg, s.(received := s.received + [s.deliveries[v].pc.payload], acked := acked))
  {
    var p := s.deliveries[v].pc.payload;
    var received := s.received + [p];
    assert SendingOk(s.jobs, s.outputs, s.outbox, s.deliveries[v]);
    forall e | e in acked ensures Received(received, e) {
      if e in s.acked {
        assert Received(s.received, e);
        var k :| 0 <= k < |s.received| && s.received[k].eventId == e;
        assert received[k].eventId == e;
      } else {
        assert received[|s.received|].eventId == e;
      }
    }
    forall u | 0 <= u < |s.deliveries| ensures DeliveryOk(s.outbox, acked, s.deliveries[u]) {
      assert DeliveryOk(s.outbox, s.acked, s.deliveries[u]);
    }
  }

  lemma SendKeepsInv(cfg: Config, s: State, v: nat, p: Payload, outcome: SendOutcome)
    requires Inv(cfg, s) && v < |s.deliveries| && s.deliveries[v].pc == AtSend(p)
    ensures Inv(cfg, SendStep(s, v, p, outcome))
  {
    var me, t := s.deliveries[v], SendStep(s, v, p, outcome);
    assert DeliveryOk(s.outbox, s.acked, me) && SendingOk(s.jobs, s.outputs, s.outbox, me);
    if t.received != s.received { ReceiveKeepsInv(cfg, s, v, t.acked); }
    DeliveryMoveKeepsInv(cfg, s.(received := t.received, acked := t.acked), v, t.deliveries[v].pc);
  }

  lemma MarkSentKeepsInv(cfg: Config, s: State, v: nat)
    requires Inv(cfg, s) && v < |s.deliveries| && s.deliveries[v].pc == AtMarkSent
    ensures Inv(cfg, MarkSentStep(s, v))
  {
    assert DeliveryOk(s.outbox, s.acked, s.deliveries[v]);
    DeliveryMoveKeepsInv(cfg, s, v, DeliveryDone);
    MarkKeepsInv(cfg, SetDelivery(s, v, DeliveryDone), s.deliveries[v].eventId);
  }

  lemma ReleaseSentKeepsInv(cfg: Config, s: State, v: nat, error: string)
    requires Inv(cfg, s) && v < |s.deliveries|
    ensures Inv(cfg, ReleaseSentStep(cfg, s, v, error))
  {
    assert DeliveryOk(s.outbox, s.acked, s.deliveries[v]);
    DeliveryMoveKeepsInv(cfg, s, v, DeliveryDone);
    ReleaseKeepsInv(cfg, SetDelivery(s, v, DeliveryDone), s.deliveries[v].eventId, error);
  }

  lemma DeliveryStepKeepsInv(cfg: Config, s: State, v: nat, outcome: SendOutcome)
    requires Inv(cfg, s) && v < |s.deliveries|
    ensures Inv(cfg, DeliveryStep(cfg, s, v, outcome))
  {
    match s.deliveries[v].pc
    case AtRead => ReadKeepsInv(cfg, s, v);
    case AtSend(p) => SendKeepsInv(cfg, s, v, p, outcome);
    case AtMarkSent => MarkSentKeepsInv(cfg, s, v);
    case AtReleaseSent(error) => ReleaseSentKeepsInv(cfg, s, v, error);
    case DeliveryDone =>
  }

  // ------------------------------------------------------------------ the whole system

  lemma SpawnWorkerKeepsInv(cfg: Config, s: State, job: nat)
    requires Inv(cfg, s) && ProcessTask(job) in s.broker
    ensures Inv(cfg, DeliverTask(s, ProcessTask(job)))
  {
    var t := DeliverTask(s, ProcessTask(job));
    assert TaskOk(s.jobs, s.outbox, ProcessTask(job));
    forall w | 0 <= w < |t.workers| ensures WorkerOk(t.jobs, t.owners, w, t.workers[w]) {
      if w < |s.workers| { assert WorkerOk(s.jobs, s.owners, w, s.workers[w]); }
    }
    forall j | j in t.owners ensures OwnerOk(t.jobs, t.workers, j, t.owners[j]) {
      assert OwnerOk(s.jobs, s.workers, j, s.owners[j]);
    }
  }

  lemma SpawnDeliveryKeepsInv(cfg: Config, s: State, e: nat)
    requires Inv(cfg, s) && WebhookTask(e) in s.broker
    ensures Inv(cfg, DeliverTask(s, WebhookTask(e)))
  {
    assert TaskOk(s.jobs, s.outbox, WebhookTask(e));
  }

  lemma SpawnCallerKeepsInv(cfg: Config, s: State, c: Creator)
    requires Inv(cfg, s) && c.pc == AtSelect
    ensures Inv(cfg, s.(creators := s.creators + [c]))
  {
  }

  lemma SpawnDispatcherKeepsInv(cfg: Config, s: State)
    requires Inv(cfg, s)
    ensures Inv(cfg, s.(dispatchers := s.dispatchers + [DispatcherProc([], AtRecover)]))
  {
  }

  lemma RaiseKeepsInv(cfg: Config, s: State, w: nat)
    requires Inv(cfg, s) && w < |s.workers|
    ensures Inv(cfg, WorkerRaise(s, w))
  {
    if WorkerRaise(s, w) != s { PcMoveKeepsInv(cfg, s, w, AtHandler); }
  }

  lemma TickKeepsInv(cfg: Config, s: State, seconds: nat)
    requires Inv(cfg, s)
    ensures Inv(cfg, s.(now := s.now + seconds))
  {
  }

  /** Which step an action is. */
  lemma ApplyIs(cfg: Config, s: State, a: Action)
    ensures a.Tick? ==> Apply(cfg, s, a) == s.(now := s.now + a.seconds)
    ensures a.SubmitCreate? ==> Apply(cfg, s, a) == s.(creators := s.creators + [Creator(a.user, a.client, a.inputHash, AtSelect)])
    ensures a.RunCreator? ==> Apply(cfg, s, a) == if a.creator < |s.creators| then CreatorStep(s, a.creator) else s
    ensures a.Cancel? ==> Apply(cfg, s, a) == CancelStep(s, a.client, a.job)
    ensures a.Redeliver? ==> Apply(cfg, s, a) == DeliverTask(s, a.task)
    ensures a.RunWorker? ==> Apply(cfg, s, a) == if a.worker < |s.workers| then WorkerStep(cfg, s, a.worker, a.workerChoice) else s
    ensures a.RaiseInWorker? ==> Apply(cfg, s, a) == if a.worker < |s.workers| then WorkerRaise(s, a.worker) else s
    ensures a.CrashWorker? ==> Apply(cfg, s, a) == if a.worker < |s.workers| then SetPc(s, a.worker, Stopped) else s
    ensures a.StartDispatcher? ==> Apply(cfg, s, a) == s.(dispatchers := s.dispatchers + [DispatcherProc([], AtRecover)])
    ensures a.RunDispatcher? ==>
      Apply(cfg, s, a) == if a.dispatcher < |s.dispatchers| then DispatcherStep(cfg, s, a.dispatcher, a.dispatcherChoice) else s
    ensures a.RunDelivery? ==> Apply(cfg, s, a) == if a.delivery < |s.deliveries| then DeliveryStep(cfg, s, a.delivery, a.sendOutcome) else s
  {
  }

  lemma RedeliverKeepsInv(cfg: Config, s: State, task: Task)
    requires Inv(cfg, s)
    ensures Inv(cfg, DeliverTask(s, task))
  {
    if task in s.broker {
      match task
      case ProcessTask(job) => SpawnWorkerKeepsInv(cfg, s, job);
      case WebhookTask(e) => SpawnDeliveryKeepsInv(cfg, s, e);
    }
  }

  lemma CrashKeepsInv(cfg: Config, s: State, w: nat)
    requires Inv(cfg, s) && w < |s.workers|
    ensures Inv(cfg, SetPc(s, w, Stopped))
  {
    PcMoveKeepsInv(cfg, s, w, Stopped);
  }

  /** Every action of every process keeps the invariant. */
  lemma ApplyKeepsInv(cfg: Config, s: State, a: Action)
    requires Inv(cfg, s)
    ensures Inv(cfg, Apply(cfg, s, a))
  {
    ApplyIs(cfg, s, a);
    if a.Tick? { TickKeepsInv(cfg, s, a.seconds); }
    else if a.SubmitCreate? { SpawnCallerKeepsInv(cfg, s, Creator(a.user, a.client, a.inputHash, AtSelect)); }
    else if a.RunCreator? { if a.creator < |s.creators| { CreatorStepKeepsInv(cfg, s, a.creator); } }
    else if a.Cancel? { CancelKeepsInv(cfg, s, a.client, a.job); }
    else if a.Redeliver? { RedeliverKeepsInv(cfg, s, a.task); }
    else if a.RunWorker? { if a.worker < |s.workers| { WorkerStepKeepsInv(cfg, s, a.worker, a.workerChoice); } }
    else if a.RaiseInWorker? { if a.worker < |s.workers| { RaiseKeepsInv(cfg, s, a.worker); } }
    else if a.CrashWorker? { if a.worker < |s.workers| { CrashKeepsInv(cfg, s, a.worker); } }
    else if a.StartDispatcher? { SpawnDispatcherKeepsInv(cfg, s); }
    else if a.RunDispatcher? { if a.dispatcher < |s.dispatchers| { DispatcherStepKeepsInv(cfg, s, a.dispatcher, a.dispatcherChoice); } }
    else if a.delivery < |s.deliveries| { DeliveryStepKeepsInv(cfg, s, a.delivery, a.sendOutcome); }
  }

  lemma {:induction false} RunKeepsInv(cfg: Config, s: State, run: seq<Action>)
    requires Inv(cfg, s)
    ensures Inv(cfg, Run(cfg, s, run))
    decreases |run|
  {
    if run != [] {
      ApplyKeepsInv(cfg, s, run[0]);
      RunKeepsInv(cfg, Apply(cfg, s, run[0]), run[1..]);
    }
  }

  lemma AfterInv(cfg: Config, run: seq<Action>)
    ensures Inv(cfg, After(cfg, run))
  {
    InitInv(cfg);
    RunKeepsInv(cfg, Init(), run);
  }
}
