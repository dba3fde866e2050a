/** Concrete runs showing that four natural stronger claims about the protocol are false. */
module ProtocolWitnesses {
  import opened Basics
  import opened JobStateMachine
  import opened OutboxRows
  import opened Idempotency
  import opened Protocol
  import opened ProtocolTheorems

  const JOB := JobRow("u:c", "c", 0, Queued, 0)

  /** One caller has created one job. */
  lemma CreatedRun(cfg: Config) returns (run: seq<Action>)
    ensures var s := After(cfg, run);
      && s.now == 0 && s.jobs == [JOB] && s.outputs == [] && s.outbox == [NewRow(0, ProcessAiJob, 0)]
      && s.workers == [] && s.dispatchers == [] && s.owners == map[] && s.broker == {}
  {
    run := [];
    assert After(cfg, run) == Init();
    RunSnoc(cfg, Init(), run, SubmitCreate("u", "c", 0));
    run := run + [SubmitCreate("u", "c", 0)];
    assert After(cfg, run).creators == [Creator("u", "c", 0, AtSelect)];
    RunSnoc(cfg, Init(), run, RunCreator(0));
    run := run + [RunCreator(0)];
    assert After(cfg, run).creators == [Creator("u", "c", 0, AtInsert)];
    RunSnoc(cfg, Init(), run, RunCreator(0));
    run := run + [RunCreator(0)];
    assert BuildScope("u", "c") == "u:c";
  }

  /** A dispatcher has claimed the process row and is about to publish it. */
  lemma ClaimedRowRun(cfg: Config) returns (run: seq<Action>)
    requires cfg.settings.Valid()
    ensures var s := After(cfg, run);
      && s.now == 0 && s.jobs == [JOB] && s.outputs == [] && s.outbox == [ClaimedRow(NewRow(0, ProcessAiJob, 0), 0)]
      && s.workers == [] && s.dispatchers == [DispatcherProc([0], AtEnqueue)] && s.owners == map[] && s.broker == {}
  {
    run := CreatedRun(cfg);
    var go := RunDispatcher(0, DispatcherChoice({}, Accepted));
    RunSnoc(cfg, Init(), run, StartDispatcher);
    run := run + [StartDispatcher];
    assert After(cfg, run).dispatchers == [DispatcherProc([], AtRecover)];
    RunSnoc(cfg, Init(), run, go);
    run := run + [go];
    var rows := [NewRow(0, ProcessAiJob, 0)];
    assert After(cfg, run).outbox == rows;
    assert After(cfg, run).dispatchers == [DispatcherProc([], AtClaimRows)];
    RunSnoc(cfg, Init(), run, go);
    run := run + [go];
    assert ClaimQuery(rows, 0, cfg.settings.batchSize - 1, {}, 1) == [];
    assert ClaimQuery(rows, 0, cfg.settings.batchSize, {}, 0) == [0];
  }

  /** Worker 0 owns the job and has committed PREPARING. */
  lemma OwnedJobRun(cfg: Config) returns (run: seq<Action>)
    requires cfg.settings.Valid()
    ensures var s := After(cfg, run);
      && s.jobs == [JOB.(status := Preparing)] && s.outputs == []
      && s.workers == [Worker(0, Preparing, AtRetrieve)] && s.owners == map[0 := 0] && s.broker == {ProcessTask(0)}
  {
    run := ClaimedRowRun(cfg);
    var go := RunDispatcher(0, DispatcherChoice({}, Accepted));
    RunSnoc(cfg, Init(), run, go);
    run := run + [go];
    assert After(cfg, run).broker == {ProcessTask(0)};
    RunSnoc(cfg, Init(), run, Redeliver(ProcessTask(0)));
    run := run + [Redeliver(ProcessTask(0))];
    assert After(cfg, run).workers == [Worker(0, Queued, AtClaim)];
    RunSnoc(cfg, Init(), run, RunWorker(0, FinishPipeline(0)));
    run := run + [RunWorker(0, FinishPipeline(0))];
  }

  /** The owner's way from its RETRIEVING write to COMPLETED, over whatever terminal status the row
      has before it. */
  lemma OwnerCompletes(cfg: Config, s: State) returns (more: seq<Action>)
    requires |s.jobs| == 1 && s.outputs == [] && |s.workers| >= 1 && s.workers[0] == Worker(0, Preparing, AtRetrieve)
    ensures StatusAt(Run(cfg, s, more), 0) == Some(Completed)
  {
    var step := RunWorker(0, FinishPipeline(7));
    assert Run(cfg, s, []) == s;
    RunSnoc(cfg, s, [], step);
    more := [] + [step];
    assert Run(cfg, s, more).workers[0] == Worker(0, Retrieving, InPipeline);
    RunSnoc(cfg, s, more, step);
    more := more + [step];
    assert Run(cfg, s, more).workers[0] == Worker(0, Retrieving, AtCancelCheck(7));
    assert StatusAt(Run(cfg, s, more), 0) == Some(Retrieving);
    RunSnoc(cfg, s, more, step);
    more := more + [step];
    assert Run(cfg, s, more).workers[0] == Worker(0, Retrieving, AtValidate(7));
    RunSnoc(cfg, s, more, step);
    more := more + [step];
    assert Run(cfg, s, more).workers[0] == Worker(0, Validating, AtFinal(7));
    assert StatusAt(Run(cfg, s, more), 0) == Some(Validating) && Run(cfg, s, more).outputs == [];
    RunSnoc(cfg, s, more, step);
    more := more + [step];
  }

  /** A cancel that commits between the claim and the RETRIEVING write is lost: the job completes. */
  lemma CanceledJobCanComplete(cfg: Config) returns (run: seq<Action>, more: seq<Action>)
    requires cfg.settings.Valid()
    ensures StatusAt(After(cfg, run), 0) == Some(Canceled)
    ensures StatusAt(Run(cfg, After(cfg, run), more), 0) == Some(Completed)
  {
    run := OwnedJobRun(cfg);
    RunSnoc(cfg, Init(), run, Cancel("c", 0));
    run := run + [Cancel("c", 0)];
    more := OwnerCompletes(cfg, After(cfg, run));
  }

  /** A redelivered message whose first read raises reports FAILED for a job its owner then completes. */
  lemma FailedJobCanComplete(cfg: Config) returns (run: seq<Action>, more: seq<Action>)
    requires cfg.settings.Valid()
    ensures StatusAt(After(cfg, run), 0) == Some(Failed)
    ensures StatusAt(Run(cfg, After(cfg, run), more), 0) == Some(Completed)
  {
    run := OwnedJobRun(cfg);
    RunSnoc(cfg, Init(), run, Redeliver(ProcessTask(0)));
    run := run + [Redeliver(ProcessTask(0))];
    RunSnoc(cfg, Init(), run, RaiseInWorker(1));
    run := run + [RaiseInWorker(1)];
    assert After(cfg, run).workers == [Worker(0, Preparing, AtRetrieve), Worker(0, Queued, AtHandler)];
    RunSnoc(cfg, Init(), run, RunWorker(1, FinishPipeline(0)));
    run := run + [RunWorker(1, FinishPipeline(0))];
    assert After(cfg, run).workers == [Worker(0, Preparing, AtRetrieve), Worker(0, Queued, Stopped)];
    more := OwnerCompletes(cfg, After(cfg, run));
  }

  /** A second dispatcher has taken over the row of a first one that stalled past the lock timeout. */
  lemma TakenOverRun(cfg: Config) returns (run: seq<Action>)
    requires cfg.settings.Valid()
    ensures var s := After(cfg, run);
      && |s.outbox| == 1 && s.outbox[0].eventType == ProcessAiJob
      && s.dispatchers == [DispatcherProc([0], AtEnqueue), DispatcherProc([0], AtEnqueue)]
  {
    run := ClaimedRowRun(cfg);
    var late := cfg.settings.lockTimeout + 1;
    var go := RunDispatcher(1, DispatcherChoice({}, Accepted));
    RunSnoc(cfg, Init(), run, Tick(late));
    run := run + [Tick(late)];
    RunSnoc(cfg, Init(), run, StartDispatcher);
    run := run + [StartDispatcher];
    RunSnoc(cfg, Init(), run, go);
    run := run + [go];
    var rows := [RecoveredRow(ClaimedRow(NewRow(0, ProcessAiJob, 0), 0), late, cfg.settings.lockTimeout)];
    assert After(cfg, run).outbox == rows && rows[0].status == Pending;
    RunSnoc(cfg, Init(), run, go);
    run := run + [go];
    assert ClaimQuery(rows, late, cfg.settings.batchSize - 1, {}, 1) == [];
    assert ClaimQuery(rows, late, cfg.settings.batchSize, {}, 0) == [0];
  }

  /** A slow dispatcher releases a row that another one has marked DISPATCHED in the meantime. */
  lemma DispatchedRowCanRegress(cfg: Config) returns (run: seq<Action>, more: seq<Action>)
    requires cfg.settings.Valid()
    ensures After(cfg, run).outbox != [] && After(cfg, run).outbox[0].status == Dispatched
    ensures var t := Run(cfg, After(cfg, run), more); t.outbox != [] && t.outbox[0].status == Pending
  {
    run := TakenOverRun(cfg);
    var go := RunDispatcher(1, DispatcherChoice({}, Accepted));
    RunSnoc(cfg, Init(), run, go);
    run := run + [go];
    assert After(cfg, run).dispatchers == [DispatcherProc([0], AtEnqueue), DispatcherProc([0], AtMark)];
    RunSnoc(cfg, Init(), run, go);
    run := run + [go];
    var s := After(cfg, run);
    assert s.dispatchers[0] == DispatcherProc([0], AtEnqueue);
    var slow := RunDispatcher(0, DispatcherChoice({}, Refused("OSError")));
    assert Run(cfg, s, []) == s;
    RunSnoc(cfg, s, [], slow);
    more := [] + [slow];
    assert Run(cfg, s, more).dispatchers[0] == DispatcherProc([0], AtRelease("OSError"));
    RunSnoc(cfg, s, more, slow);
    more := more + [slow];
  }

  // ------------------------------------------------------------------ a scope that two users share

  /** User "a" has created a job for the client id "b:c". */
  lemma FirstUserRun(cfg: Config) returns (run: seq<Action>)
    ensures var s := After(cfg, run);
      && s.jobs == [JobRow("a:b:c", "b:c", 0, Queued, 0)]
      && s.creators == [Creator("a", "b:c", 0, Returned(Created(0)))]
  {
    run := [];
    assert After(cfg, run) == Init();
    RunSnoc(cfg, Init(), run, SubmitCreate("a", "b:c", 0));
    run := run + [SubmitCreate("a", "b:c", 0)];
    assert After(cfg, run).creators == [Creator("a", "b:c", 0, AtSelect)] && After(cfg, run).jobs == [];
    RunSnoc(cfg, Init(), run, RunCreator(0));
    run := run + [RunCreator(0)];
    assert After(cfg, run).creators == [Creator("a", "b:c", 0, AtInsert)] && After(cfg, run).jobs == [];
    RunSnoc(cfg, Init(), run, RunCreator(0));
    run := run + [RunCreator(0)];
    assert BuildScope("a", "b:c") == "a:b:c";
  }

  /** With colons in client ids two different users can get one job: "a" with "b:c" and "a:b" with "c". */
  lemma TwoUsersCanShareAJob(cfg: Config) returns (run: seq<Action>, c: Creator, d: Creator)
    ensures c in After(cfg, run).creators && d in After(cfg, run).creators
    ensures c.user != d.user && Answered(c, 0) && Answered(d, 0)
  {
    run := FirstUserRun(cfg);
    c := Creator("a", "b:c", 0, Returned(Created(0)));
    RunSnoc(cfg, Init(), run, SubmitCreate("a:b", "c", 0));
    run := run + [SubmitCreate("a:b", "c", 0)];
    var s := After(cfg, run);
    assert s.creators == [c, Creator("a:b", "c", 0, AtSelect)] && s.jobs == [JobRow("a:b:c", "b:c", 0, Queued, 0)];
    assert BuildScope("a:b", "c") == "a:b:c";
    assert FindJob(s.jobs, "a:b:c", 0) == Some(0);
    RunSnoc(cfg, Init(), run, RunCreator(1));
    run := run + [RunCreator(1)];
    d := Creator("a:b", "c", 0, Returned(Existing(0)));
    assert After(cfg, run).creators == [c, d];
    assert c == After(cfg, run).creators[0] && d == After(cfg, run).creators[1];
  }
}
