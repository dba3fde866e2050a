/** The inductive invariant of the job protocol, one part for each concern, and what
    single statements on the tables do to it. */
module ProtocolInvariant {
  import opened Basics
  import opened JobStateMachine
  import opened OutboxRows
  import opened Idempotency
  import opened Protocol

  // ------------------------------------------------------------------ workers and ownership

  predicate IsActive(pc: WorkerPc) {
    pc.AtRetrieve? || pc.InPipeline? || pc.AtCancelCheck? || pc.AtValidate? || pc.AtFinal?
  }

  function CachedAt(pc: WorkerPc): JobStatus {
    if pc.AtRetrieve? then Preparing else if pc.AtFinal? then Validating else Retrieving
  }

  predicate Owns(owners: map<nat, nat>, w: nat, job: nat) {
    job in owners && owners[job] == w
  }

  ghost predicate WorkerOk(jobs: seq<JobRow>, owners: map<nat, nat>, w: nat, me: Worker) {
    && me.job < |jobs|
    && (IsActive(me.pc) ==>
          && Owns(owners, w, me.job)
          && me.cached == CachedAt(me.pc)
          && jobs[me.job].status != Completed)
  }

  ghost predicate OwnerOk(jobs: seq<JobRow>, workers: seq<Worker>, job: nat, w: nat) {
    && job < |jobs| && w < |workers|
    && workers[w].job == job
    && workers[w].pc != AtClaim
    && jobs[job].status != Queued
  }

  ghost predicate WorkersOk(jobs: seq<JobRow>, workers: seq<Worker>, owners: map<nat, nat>) {
    && (forall w :: 0 <= w < |workers| ==> WorkerOk(jobs, owners, w, workers[w]))
    && (forall job :: job in owners ==> OwnerOk(jobs, workers, job, owners[job]))
  }

  ghost predicate EntriesOk(workers: seq<Worker>, owners: map<nat, nat>, entries: seq<nat>) {
    && (forall k, l :: 0 <= k < l < |entries| ==> entries[k] != entries[l])
    && (forall k :: 0 <= k < |entries| ==>
          && entries[k] in owners && owners[entries[k]] < |workers|
          && workers[owners[entries[k]]].pc != AtRetrieve && workers[owners[entries[k]]].pc != AtClaim)
  }

  // ------------------------------------------------------------------ results

  ghost predicate UniqueOutputs(outputs: seq<OutputRow>) {
    forall o, p :: 0 <= o < p < |outputs| ==> outputs[o].job != outputs[p].job
  }

  ghost predicate UniqueRows(outbox: seq<Row>) {
    forall i, k :: 0 <= i < k < |outbox| ==>
      !(outbox[i].job == outbox[k].job && outbox[i].eventType == outbox[k].eventType)
  }

  ghost predicate JobResultsOk(jobs: seq<JobRow>, outputs: seq<OutputRow>, outbox: seq<Row>, job: nat)
    requires job < |jobs|
  {
    && HasRow(outbox, job, ProcessAiJob)
    && (jobs[job].status == Completed <==> HasOutput(outputs, job))
    && (jobs[job].status == Completed <==> HasRow(outbox, job, DeliverResultWebhook))
  }

  ghost predicate ResultsOk(jobs: seq<JobRow>, outputs: seq<OutputRow>, outbox: seq<Row>) {
    && UniqueOutputs(outputs)
    && UniqueRows(outbox)
    && (forall o :: 0 <= o < |outputs| ==> outputs[o].job < |jobs|)
    && (forall i :: 0 <= i < |outbox| ==> outbox[i].job < |jobs|)
    && (forall job :: 0 <= job < |jobs| ==> JobResultsOk(jobs, outputs, outbox, job))
  }

  // ------------------------------------------------------------------ outbox rows

  ghost predicate RowOk(r: Row, now: nat, retryMax: nat, claimCount: nat) {
    && (r.lockedAt.Some? <==> r.status == Dispatching)
    && (r.lockedAt.Some? ==> r.lockedAt.value == r.updatedAt)
    && (r.status == Dispatched ==> r.dispatchedAt == Some(r.updatedAt))
    && r.createdAt <= r.updatedAt <= now
    && r.availableAt <= r.updatedAt + retryMax
    && r.attemptCount == claimCount
  }

  ghost predicate RowsOk(outbox: seq<Row>, now: nat, retryMax: nat, claims: seq<nat>) {
    && (forall i :: 0 <= i < |outbox| ==> RowOk(outbox[i], now, retryMax, multiset(claims)[i]))
    && (forall i, k :: 0 <= i < k < |outbox| ==> outbox[i].createdAt <= outbox[k].createdAt)
    && (forall k :: 0 <= k < |claims| ==> claims[k] < |outbox|)
  }

  // ------------------------------------------------------------------ handing over

  ghost predicate TaskOk(jobs: seq<JobRow>, outbox: seq<Row>, task: Task) {
    match task
    case ProcessTask(job) => job < |jobs|
    case WebhookTask(e) => e < |outbox| && outbox[e].eventType == DeliverResultWebhook
  }

  ghost predicate DispatcherOk(outbox: seq<Row>, broker: set<Task>, d: DispatcherProc) {
    && (forall k :: 0 <= k < |d.events| ==> d.events[k] < |outbox|)
    && (d.pc == AtMark ==>
          && d.events != []
          && outbox[d.events[0]].eventType == ProcessAiJob
          && ProcessTask(outbox[d.events[0]].job) in broker)
    && (d.pc.AtRelease? ==> d.events != [])
  }

  ghost predicate DeliveryOk(outbox: seq<Row>, acked: set<nat>, v: Delivery) {
    && v.eventId < |outbox| && outbox[v.eventId].eventType == DeliverResultWebhook
    && (v.pc == AtMarkSent ==> v.eventId in acked)
  }

  /** The handover of a DISPATCHED row has happened. */
  ghost predicate HandedOver(r: Row, i: nat, broker: set<Task>, acked: set<nat>) {
    if r.eventType == ProcessAiJob then ProcessTask(r.job) in broker else i in acked
  }

  ghost predicate HandoffOk(jobs: seq<JobRow>, outbox: seq<Row>, broker: set<Task>, dispatchers: seq<DispatcherProc>,
                            deliveries: seq<Delivery>, acked: set<nat>) {
    && (forall task :: task in broker ==> TaskOk(jobs, outbox, task))
    && (forall d :: 0 <= d < |dispatchers| ==> DispatcherOk(outbox, broker, dispatchers[d]))
    && (forall v :: 0 <= v < |deliveries| ==> DeliveryOk(outbox, acked, deliveries[v]))
    && (forall i :: 0 <= i < |outbox| && outbox[i].status == Dispatched ==> HandedOver(outbox[i], i, broker, acked))
  }

  // ------------------------------------------------------------------ payloads

  /** What every send of this webhook row carries. */
  ghost predicate IsPayloadOf(jobs: seq<JobRow>, outputs: seq<OutputRow>, outbox: seq<Row>, p: Payload) {
    && p.eventId < |outbox|
    && outbox[p.eventId].eventType == DeliverResultWebhook
    && outbox[p.eventId].job < |jobs|
    && jobs[outbox[p.eventId].job].status == Completed
    && FindOutput(outputs, outbox[p.eventId].job).Some?
    && p == BuildPayload(jobs, FindOutput(outputs, outbox[p.eventId].job).value, p.eventId, outbox[p.eventId].job)
  }

  ghost predicate Received(received: seq<Payload>, e: nat) {
    exists k :: 0 <= k < |received| && received[k].eventId == e
  }

  ghost predicate SendingOk(jobs: seq<JobRow>, outputs: seq<OutputRow>, outbox: seq<Row>, v: Delivery) {
    v.pc.AtSend? ==> v.pc.payload.eventId == v.eventId && IsPayloadOf(jobs, outputs, outbox, v.pc.payload)
  }

  ghost predicate PayloadsOk(jobs: seq<JobRow>, outputs: seq<OutputRow>, outbox: seq<Row>, deliveries: seq<Delivery>,
                             received: seq<Payload>, acked: set<nat>) {
    && (forall k :: 0 <= k < |received| ==> IsPayloadOf(jobs, outputs, outbox, received[k]))
    && (forall v :: 0 <= v < |deliveries| ==> SendingOk(jobs, outputs, outbox, deliveries[v]))
    && (forall e :: e in acked ==> Received(received, e))
  }

  // ------------------------------------------------------------------ creation

  ghost predicate HasScope(jobs: seq<JobRow>, scope: string) {
    exists j :: 0 <= j < |jobs| && jobs[j].scope == scope
  }

  ghost predicate ConflictWitness(jobs: seq<JobRow>, scope: string, inputHash: nat) {
    exists j :: 0 <= j < |jobs| && jobs[j].scope == scope && jobs[j].inputHash != inputHash
  }

  ghost predicate CreatorOk(jobs: seq<JobRow>, c: Creator) {
    var scope := BuildScope(c.user, c.client);
    match c.pc
    case AtSelect => true
    case AtInsert => true
    case AtReread => HasScope(jobs, scope)
    case Returned(Created(j)) => j < |jobs| && jobs[j].scope == scope && jobs[j].inputHash == c.inputHash
    case Returned(Existing(j)) => j < |jobs| && jobs[j].scope == scope && jobs[j].inputHash == c.inputHash
    case Returned(IdempotencyConflict) => ConflictWitness(jobs, scope, c.inputHash)
    case Returned(IntegrityErrorRaised) => false
  }

  predicate CreatedJob(c: Creator, j: nat) {
    c.pc == Returned(Created(j))
  }

  /** No job was created by two calls. */
  ghost predicate CreatedOnce(creators: seq<Creator>) {
    forall c, d, j :: 0 <= c < d < |creators| && CreatedJob(creators[c], j) ==> !CreatedJob(creators[d], j)
  }

  ghost predicate CreationOk(jobs: seq<JobRow>, creators: seq<Creator>) {
    && (forall i, j :: 0 <= i < j < |jobs| ==> jobs[i].scope != jobs[j].scope)
    && (forall c :: 0 <= c < |creators| ==> CreatorOk(jobs, creators[c]))
    && CreatedOnce(creators)
  }

  // ------------------------------------------------------------------ the invariant

  ghost predicate Inv(cfg: Config, s: State) {
    && WorkersOk(s.jobs, s.workers, s.owners)
    && EntriesOk(s.workers, s.owners, s.entries)
    && ResultsOk(s.jobs, s.outputs, s.outbox)
    && RowsOk(s.outbox, s.now, cfg.settings.retryMax, s.claims)
    && HandoffOk(s.jobs, s.outbox, s.broker, s.dispatchers, s.deliveries, s.acked)
    && PayloadsOk(s.jobs, s.outputs, s.outbox, s.deliveries, s.received, s.acked)
    && CreationOk(s.jobs, s.creators)
    && s.guardTrips == 0
  }

  lemma InitInv(cfg: Config)
    ensures Inv(cfg, Init())
  {
  }

  // ------------------------------------------------------------------ effects on the tables

  /** The statements of the dispatcher and the webhook handler never touch the identity of a row. */
  ghost predicate SameIdentity(a: seq<Row>, b: seq<Row>) {
    && |a| == |b|
    && forall i :: 0 <= i < |a| ==>
         a[i].job == b[i].job && a[i].eventType == b[i].eventType && a[i].createdAt == b[i].createdAt
  }

  lemma IdentityKeepsResults(jobs: seq<JobRow>, outputs: seq<OutputRow>, a: seq<Row>, b: seq<Row>)
    requires ResultsOk(jobs, outputs, a) && SameIdentity(a, b)
    ensures ResultsOk(jobs, outputs, b)
  {
    forall job, t ensures HasRow(a, job, t) == HasRow(b, job, t) {
      if HasRow(a, job, t) {
        var i :| 0 <= i < |a| && a[i].job == job && a[i].eventType == t;
        assert b[i].job == job && b[i].eventType == t;
      }
      if HasRow(b, job, t) {
        var i :| 0 <= i < |b| && b[i].job == job && b[i].eventType == t;
        assert a[i].job == job && a[i].eventType == t;
      }
    }
    forall job | 0 <= job < |jobs| ensures JobResultsOk(jobs, outputs, b, job) {
      assert JobResultsOk(jobs, outputs, a, job);
    }
  }

  lemma IdentityKeepsPayloads(jobs: seq<JobRow>, outputs: seq<OutputRow>, a: seq<Row>, b: seq<Row>,
                              deliveries: seq<Delivery>, received: seq<Payload>, acked: set<nat>)
    requires PayloadsOk(jobs, outputs, a, deliveries, received, acked) && SameIdentity(a, b)
    ensures PayloadsOk(jobs, outputs, b, deliveries, received, acked)
  {
    forall v | 0 <= v < |deliveries| ensures SendingOk(jobs, outputs, b, deliveries[v]) {
      assert SendingOk(jobs, outputs, a, deliveries[v]);
    }
  }

  /** A job row changed while not COMPLETED before or after, its identity columns kept. */
  ghost predicate OpenChange(jobs: seq<JobRow>, jobs': seq<JobRow>, j: nat) {
    && j < |jobs| == |jobs'|
    && jobs' == jobs[j := jobs'[j]]
    && jobs[j].scope == jobs'[j].scope
    && jobs[j].client == jobs'[j].client
    && jobs[j].inputHash == jobs'[j].inputHash
    && jobs[j].status != Completed && jobs'[j].status != Completed
  }

  lemma OpenChangeKeepsResults(jobs: seq<JobRow>, jobs': seq<JobRow>, j: nat, outputs: seq<OutputRow>, outbox: seq<Row>)
    requires OpenChange(jobs, jobs', j) && ResultsOk(jobs, outputs, outbox)
    ensures ResultsOk(jobs', outputs, outbox)
  {
    forall job | 0 <= job < |jobs'| ensures JobResultsOk(jobs', outputs, outbox, job) {
      assert JobResultsOk(jobs, outputs, outbox, job);
    }
  }

  lemma OpenChangeKeepsPayloads(jobs: seq<JobRow>, jobs': seq<JobRow>, j: nat, outputs: seq<OutputRow>, outbox: seq<Row>,
                                deliveries: seq<Delivery>, received: seq<Payload>, acked: set<nat>)
    requires OpenChange(jobs, jobs', j) && PayloadsOk(jobs, outputs, outbox, deliveries, received, acked)
    ensures PayloadsOk(jobs', outputs, outbox, deliveries, received, acked)
  {
    forall v | 0 <= v < |deliveries| ensures SendingOk(jobs', outputs, outbox, deliveries[v]) {
      assert SendingOk(jobs, outputs, outbox, deliveries[v]);
    }
  }

  /** Scopes and input hashes are never changed, and rows only appended. */
  ghost predicate IdentityExtends(jobs: seq<JobRow>, jobs': seq<JobRow>) {
    && |jobs| <= |jobs'|
    && forall i :: 0 <= i < |jobs| ==> jobs[i].scope == jobs'[i].scope && jobs[i].inputHash == jobs'[i].inputHash
  }

  lemma CreatorStaysOk(jobs: seq<JobRow>, jobs': seq<JobRow>, c: Creator)
    requires IdentityExtends(jobs, jobs') && CreatorOk(jobs, c)
    ensures CreatorOk(jobs', c)
  {
    var scope := BuildScope(c.user, c.client);
    if HasScope(jobs, scope) {
      var j :| 0 <= j < |jobs| && jobs[j].scope == scope;
      assert jobs'[j].scope == scope;
    }
    if ConflictWitness(jobs, scope, c.inputHash) {
      var j :| 0 <= j < |jobs| && jobs[j].scope == scope && jobs[j].inputHash != c.inputHash;
      assert jobs'[j].scope == scope && jobs'[j].inputHash != c.inputHash;
    }
  }

  lemma OpenChangeKeepsCreation(jobs: seq<JobRow>, jobs': seq<JobRow>, j: nat, creators: seq<Creator>)
    requires OpenChange(jobs, jobs', j) && CreationOk(jobs, creators)
    ensures CreationOk(jobs', creators)
  {
    forall c | 0 <= c < |creators| ensures CreatorOk(jobs', creators[c]) {
      CreatorStaysOk(jobs, jobs', creators[c]);
    }
  }

  lemma OpenChangeKeepsHandoff(jobs: seq<JobRow>, jobs': seq<JobRow>, j: nat, outbox: seq<Row>, broker: set<Task>,
                               dispatchers: seq<DispatcherProc>, deliveries: seq<Delivery>, acked: set<nat>)
    requires OpenChange(jobs, jobs', j) && HandoffOk(jobs, outbox, broker, dispatchers, deliveries, acked)
    ensures HandoffOk(jobs', outbox, broker, dispatchers, deliveries, acked)
  {
    forall task | task in broker ensures TaskOk(jobs', outbox, task) {
      assert TaskOk(jobs, outbox, task);
    }
  }

  // ------------------------------------------------------------------ appended rows

  lemma AppendedRow(outbox: seq<Row>, r: Row, job: nat, t: EventType)
    ensures HasRow(outbox + [r], job, t) <==> HasRow(outbox, job, t) || (r.job == job && r.eventType == t)
  {
    var b := outbox + [r];
    if HasRow(outbox, job, t) {
      var i :| 0 <= i < |outbox| && outbox[i].job == job && outbox[i].eventType == t;
      assert b[i].job == job && b[i].eventType == t;
    }
    assert b[|outbox|] == r;
  }

  lemma AppendedOutput(outputs: seq<OutputRow>, o: OutputRow, job: nat)
    ensures HasOutput(outputs + [o], job) <==> HasOutput(outputs, job) || o.job == job
  {
    var b := outputs + [o];
    if HasOutput(outputs, job) {
      var i :| 0 <= i < |outputs| && outputs[i].job == job;
      assert b[i].job == job;
    }
    assert b[|outputs|] == o;
  }

  lemma {:induction false} FindOutputStable(outputs: seq<OutputRow>, o: OutputRow, job: nat)
    requires FindOutput(outputs, job).Some?
    ensures FindOutput(outputs + [o], job) == FindOutput(outputs, job)
  {
    assert (outputs + [o])[0] == outputs[0];
    if outputs[0].job != job {
      assert (outputs + [o])[1..] == outputs[1..] + [o];
      FindOutputStable(outputs[1..], o, job);
    }
  }

  lemma AppendedRowKeepsRows(outbox: seq<Row>, r: Row, now: nat, retryMax: nat, claims: seq<nat>)
    requires RowsOk(outbox, now, retryMax, claims) && r == NewRow(r.job, r.eventType, now)
    ensures RowsOk(outbox + [r], now, retryMax, claims)
  {
    assert |outbox| !in claims;
    assert multiset(claims)[|outbox|] == 0;
  }

  lemma AppendedRowKeepsHandoff(jobs: seq<JobRow>, jobs': seq<JobRow>, outbox: seq<Row>, r: Row, broker: set<Task>,
                                dispatchers: seq<DispatcherProc>, deliveries: seq<Delivery>, acked: set<nat>)
    requires HandoffOk(jobs, outbox, broker, dispatchers, deliveries, acked)
    requires |jobs| <= |jobs'| && r.status == Pending
    ensures HandoffOk(jobs', outbox + [r], broker, dispatchers, deliveries, acked)
  {
    forall task | task in broker ensures TaskOk(jobs', outbox + [r], task) {
      assert TaskOk(jobs, outbox, task);
    }
    forall d | 0 <= d < |dispatchers| ensures DispatcherOk(outbox + [r], broker, dispatchers[d]) {
      assert DispatcherOk(outbox, broker, dispatchers[d]);
    }
    forall v | 0 <= v < |deliveries| ensures DeliveryOk(outbox + [r], acked, deliveries[v]) {
      assert DeliveryOk(outbox, acked, deliveries[v]);
    }
  }
}
