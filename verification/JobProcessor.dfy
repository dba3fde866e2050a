/** process_job in its imperative form (app/services/job_processor.py): one job object per session,
    a sequence of commits, early returns and an exception handler. It is proved to leave exactly the
    tables that the protocol's worker leaves under the same interference, so every protocol theorem
    holds of them. */
module JobProcessor {
  import opened Basics
  import opened JobStateMachine
  import opened OutboxRows
  import opened Protocol
  import opened ProtocolInvariant
  import opened ProtocolPreservation
  import opened ProtocolTheorems

  /** What the worker itself does at the point before one of its steps. */
  datatype Fault = Goes | Raises | Crashes

  datatype Outcome = Proceeds | Raised | Ended

  /** The rest of the world while one worker runs. Before step k the other processes act, then the
      worker goes on, raises or crashes. `prompts` and `result` are what its pipeline records and
      returns; `inHandler` acts before the exception handler's own transaction. */
  datatype Script = Script(
    others: seq<seq<Action>>, faults: seq<Fault>, inHandler: seq<Action>, prompts: seq<nat>, result: nat)
  {
    function OthersAt(k: nat): seq<Action> { if k < |others| then others[k] else [] }

    function FaultAt(k: nat): Fault { if k < |faults| then faults[k] else Goes }

    function ChoiceAt(k: nat): WorkerChoice {
      if 2 <= k < 2 + |prompts| then RecordPrompt(prompts[k - 2]) else FinishPipeline(result)
    }

    function LastStep(): nat { 6 + |prompts| }

    /** The worker neither raises nor crashes, and nobody cancels a job or runs another worker meanwhile. */
    predicate Undisturbed() {
      && (forall k :: 0 <= k < |faults| ==> faults[k] == Goes)
      && forall k :: 0 <= k < |others| ==> AllHarmless(others[k])
    }

    predicate Fair(w: nat) {
      && OthersOnly(inHandler, w)
      && forall k :: 0 <= k < |others| ==> OthersOnly(others[k], w)
    }
  }

  predicate Harmless(a: Action) { !a.Cancel? && !a.RunWorker? && !a.RaiseInWorker? && !a.CrashWorker? }

  predicate AllHarmless(run: seq<Action>) { forall k :: 0 <= k < |run| ==> Harmless(run[k]) }

  predicate OthersOnly(run: seq<Action>, w: nat) {
    forall k :: 0 <= k < |run| ==> !ActsFor(run[k], w)
  }

  // ------------------------------------------------------------------ the protocol worker, driven

  function DriveHandler(cfg: Config, s: State, w: nat, script: Script): State {
    Apply(cfg, Run(cfg, s, script.inHandler), RunWorker(w, FinishPipeline(script.result)))
  }

  /** The protocol's worker w taken from step k to its end under a script. */
  function Drive(cfg: Config, s: State, w: nat, script: Script, k: nat): State
    decreases script.LastStep() + 1 - k
  {
    if k > script.LastStep() || w >= |s.workers| || s.workers[w].pc == Stopped then s
    else if s.workers[w].pc == AtHandler then DriveHandler(cfg, s, w, script)
    else
      var s1 := Run(cfg, s, script.OthersAt(k));
      match script.FaultAt(k)
      case Goes => Drive(cfg, Apply(cfg, s1, RunWorker(w, script.ChoiceAt(k))), w, script, k + 1)
      case Raises => DriveHandler(cfg, Apply(cfg, s1, RaiseInWorker(w)), w, script)
      case Crashes => Apply(cfg, s1, CrashWorker(w))
  }

  lemma RetrieveStepIs(s: State, w: nat)
    requires w < |s.workers| && s.workers[w].cached == Preparing
    ensures var id := s.workers[w].job;
      RetrieveStep(s, w) == s.(jobs := WithStatus(s.jobs, id, Retrieving),
                               workers := s.workers[w := Worker(id, Retrieving, InPipeline)], entries := s.entries + [id])
  {
  }

  // ------------------------------------------------------------------ an undisturbed call

  /** Calls, dispatchers and webhook handlers leave a job, its worker and the stored results alone. */
  ghost predicate Untouched(s: State, t: State, w: nat, job: nat)
    requires w < |s.workers| && job < |s.jobs|
  {
    && w < |t.workers| && t.workers[w] == s.workers[w]
    && job < |t.jobs| && t.jobs[job] == s.jobs[job] && t.outputs == s.outputs
  }

  lemma HarmlessStep(cfg: Config, s: State, a: Action, w: nat, job: nat)
    requires Harmless(a) && w < |s.workers| && job < |s.jobs|
    ensures Untouched(s, Apply(cfg, s, a), w, job)
  {
    if a.RunDispatcher? || a.RunDelivery? { OutboxLegsFrame(cfg, s, a); } else { CallersFrame(cfg, s, a); }
  }

  lemma {:induction false} HarmlessRun(cfg: Config, s: State, run: seq<Action>, w: nat, job: nat)
    requires AllHarmless(run) && w < |s.workers| && job < |s.jobs|
    ensures Untouched(s, Run(cfg, s, run), w, job)
    decreases |run|
  {
    if run != [] {
      assert Harmless(run[0]);
      HarmlessStep(cfg, s, run[0], w, job);
      assert AllHarmless(run[1..]);
      HarmlessRun(cfg, Apply(cfg, s, run[0]), run[1..], w, job);
    }
  }

  function PromptAfter(script: Script, before: nat, recorded: nat): nat
    requires recorded <= |script.prompts|
  {
    if recorded == 0 then before else script.prompts[recorded - 1]
  }

  predicate IsQueued(s: State, job: nat) { job < |s.jobs| && s.jobs[job].status == Queued }

  /** COMPLETED, with the pipeline's result stored and the last prompt recorded. */
  predicate Finished(s: State, job: nat, result: nat, prompt: nat) {
    && job < |s.jobs| && s.jobs[job].status == Completed && s.jobs[job].prompt == prompt
    && OutputRow(job, result) in s.outputs
  }

  /** Where an undisturbed worker and its job stand before step k. */
  predicate OnTrack(s: State, w: nat, job: nat, script: Script, before: nat, k: nat) {
    var n := |script.prompts|;
    && w < |s.workers| && job < |s.jobs| && s.workers[w].job == job
    && if k == 0 then s.workers[w].pc == AtClaim && s.jobs[job].status == Queued && s.jobs[job].prompt == before
       else if k == 1 then
         s.workers[w] == Worker(job, Preparing, AtRetrieve) && s.jobs[job].status == Preparing && s.jobs[job].prompt == before
       else if k <= 2 + n then
         && s.workers[w] == Worker(job, Retrieving, InPipeline) && s.jobs[job].status == Retrieving
         && s.jobs[job].prompt == PromptAfter(script, before, k - 2)
       else
         && s.jobs[job].prompt == PromptAfter(script, before, n)
         && if k <= 4 + n then
              && s.workers[w] == Worker(job, Retrieving, if k == 3 + n then AtCancelCheck(script.result) else AtValidate(script.result))
              && s.jobs[job].status == Retrieving
            else if k == 5 + n then
              s.workers[w] == Worker(job, Validating, AtFinal(script.result)) && s.jobs[job].status == Validating
            else
              && Finished(s, job, script.result, PromptAfter(script, before, n))
              && s.workers[w].pc == if k == 6 + n then AtMetrics else Stopped
  }

  lemma EarlyTrack(cfg: Config, s: State, w: nat, job: nat, script: Script, before: nat, k: nat)
    requires OnTrack(s, w, job, script, before, k) && k <= 2 + |script.prompts|
    ensures OnTrack(Apply(cfg, s, RunWorker(w, script.ChoiceAt(k))), w, job, script, before, k + 1)
  {
    if k == 0 { assert OnTrack(ClaimStep(s, w), w, job, script, before, 1); }
    else if k == 1 { RetrieveStepIs(s, w); }
    else if k < 2 + |script.prompts| { assert OnTrack(PromptStep(s, job, script.prompts[k - 2]), w, job, script, before, k + 1); }
  }

  lemma LateTrack(cfg: Config, s: State, w: nat, job: nat, script: Script, before: nat, k: nat)
    requires OnTrack(s, w, job, script, before, k) && 3 + |script.prompts| <= k <= script.LastStep()
    requires !HasOutput(s.outputs, job) || s.jobs[job].status == Completed
    ensures OnTrack(Apply(cfg, s, RunWorker(w, script.ChoiceAt(k))), w, job, script, before, k + 1)
  {
    var n := |script.prompts|;
    if k == 3 + n { assert OnTrack(CancelCheckStep(s, w, script.result), w, job, script, before, k + 1); }
    else if k == 4 + n { assert OnTrack(WriteStatus(s, w, Validating, AtFinal(script.result)), w, job, script, before, k + 1); }
    else if k == 5 + n {
      var t := FinalStep(cfg, s, w, script.result);
      assert t.outputs == s.outputs + [OutputRow(job, script.result)];
      assert OnTrack(t, w, job, script, before, k + 1);
    }
  }

  lemma TrackStep(cfg: Config, s: State, w: nat, job: nat, script: Script, before: nat, k: nat)
    requires Inv(cfg, s) && OnTrack(s, w, job, script, before, k) && k <= script.LastStep()
    ensures OnTrack(Apply(cfg, s, RunWorker(w, script.ChoiceAt(k))), w, job, script, before, k + 1)
  {
    assert JobResultsOk(s.jobs, s.outputs, s.outbox, job);
    if k <= 2 + |script.prompts| { EarlyTrack(cfg, s, w, job, script, before, k); }
    else { LateTrack(cfg, s, w, job, script, before, k); }
  }

  /** The next state of an undisturbed drive. */
  function Next(cfg: Config, s: State, w: nat, script: Script, k: nat): State {
    Apply(cfg, Run(cfg, s, script.OthersAt(k)), RunWorker(w, script.ChoiceAt(k)))
  }

  predicate Going(s: State, w: nat) { w < |s.workers| && s.workers[w].pc != Stopped && s.workers[w].pc != AtHandler }

  lemma DriveGoesOn(cfg: Config, s: State, w: nat, script: Script, k: nat)
    requires script.FaultAt(k) == Goes && k <= script.LastStep() && Going(s, w)
    ensures Drive(cfg, s, w, script, k) == Drive(cfg, Next(cfg, s, w, script, k), w, script, k + 1)
  {
  }

  lemma NextOnTrack(cfg: Config, s: State, w: nat, job: nat, script: Script, before: nat, k: nat)
    requires Inv(cfg, s) && script.Undisturbed() && OnTrack(s, w, job, script, before, k) && k <= script.LastStep()
    ensures Inv(cfg, Next(cfg, s, w, script, k)) && OnTrack(Next(cfg, s, w, script, k), w, job, script, before, k + 1)
  {
    var s1 := Run(cfg, s, script.OthersAt(k));
    HarmlessRun(cfg, s, script.OthersAt(k), w, job);
    RunKeepsInv(cfg, s, script.OthersAt(k));
    TrackStep(cfg, s1, w, job, script, before, k);
    ApplyKeepsInv(cfg, s1, RunWorker(w, script.ChoiceAt(k)));
  }

  /** The state of an undisturbed drive before step k. */
  function Reached(cfg: Config, s: State, w: nat, script: Script, k: nat): State {
    if k == 0 then s else Next(cfg, Reached(cfg, s, w, script, k - 1), w, script, k - 1)
  }

  ghost predicate TrackHolds(cfg: Config, s: State, w: nat, job: nat, script: Script, before: nat, k: nat) {
    && Inv(cfg, Reached(cfg, s, w, script, k)) && OnTrack(Reached(cfg, s, w, script, k), w, job, script, before, k)
    && (k <= script.LastStep() ==> Going(Reached(cfg, s, w, script, k), w))
  }

  /** From before step k the drive leads where it leads from the start. */
  ghost predicate Follows(cfg: Config, s: State, w: nat, script: Script, k: nat) {
    Drive(cfg, Reached(cfg, s, w, script, k), w, script, k) == Drive(cfg, s, w, script, 0)
  }

  /** The induction below sees both only as predicates on the number of the step. */
  ghost predicate IsTrack(T: nat -> bool, F: nat -> bool, cfg: Config, s: State, w: nat, job: nat, script: Script, before: nat) {
    && (forall k: nat {:trigger TrackHolds(cfg, s, w, job, script, before, k)} :: T(k) == TrackHolds(cfg, s, w, job, script, before, k))
    && (forall k: nat {:trigger Follows(cfg, s, w, script, k)} :: F(k) == Follows(cfg, s, w, script, k))
  }

  lemma TrackGoesOn(T: nat -> bool, F: nat -> bool, cfg: Config, s: State, w: nat, job: nat, script: Script, before: nat, k: nat)
    requires IsTrack(T, F, cfg, s, w, job, script, before) && script.Undisturbed() && k <= script.LastStep() && T(k)
    ensures T(k + 1)
  {
    assert TrackHolds(cfg, s, w, job, script, before, k);
    NextOnTrack(cfg, Reached(cfg, s, w, script, k), w, job, script, before, k);
    assert TrackHolds(cfg, s, w, job, script, before, k + 1);
  }

  lemma FollowsOn(T: nat -> bool, F: nat -> bool, cfg: Config, s: State, w: nat, job: nat, script: Script, before: nat, k: nat)
    requires IsTrack(T, F, cfg, s, w, job, script, before) && script.Undisturbed() && k <= script.LastStep() && T(k) && F(k)
    ensures F(k + 1)
  {
    assert TrackHolds(cfg, s, w, job, script, before, k) && Follows(cfg, s, w, script, k);
    DriveGoesOn(cfg, Reached(cfg, s, w, script, k), w, script, k);
    assert Follows(cfg, s, w, script, k + 1);
  }

  lemma TrackIsFollowed(T: nat -> bool, F: nat -> bool, cfg: Config, s: State, w: nat, job: nat, script: Script, before: nat)
    requires IsTrack(T, F, cfg, s, w, job, script, before) && script.Undisturbed() && T(0) && F(0)
    ensures T(script.LastStep() + 1) && F(script.LastStep() + 1)
  {
    var last := script.LastStep();
    var B := (k: nat) => T(k) && F(k);
    forall k: nat | k < last + 1 && B(k) ensures B(k + 1) {
      TrackGoesOn(T, F, cfg, s, w, job, script, before, k);
      FollowsOn(T, F, cfg, s, w, job, script, before, k);
    }
    CountUp(B, last + 1);
    assert B(last + 1);
  }

  lemma DriveStops(cfg: Config, s: State, w: nat, script: Script)
    ensures Drive(cfg, s, w, script, script.LastStep() + 1) == s
  {
  }

  /** An undisturbed worker takes a QUEUED job to COMPLETED, with what its pipeline recorded and returned. */
  lemma UndisturbedDrive(cfg: Config, s: State, w: nat, job: nat, script: Script, before: nat)
    requires Inv(cfg, s) && script.Undisturbed() && OnTrack(s, w, job, script, before, 0)
    ensures Finished(Drive(cfg, s, w, script, 0), job, script.result, PromptAfter(script, before, |script.prompts|))
  {
    var last := script.LastStep();
    var T := (k: nat) => TrackHolds(cfg, s, w, job, script, before, k);
    var F := (k: nat) => Follows(cfg, s, w, script, k);
    assert TrackHolds(cfg, s, w, job, script, before, 0) && Follows(cfg, s, w, script, 0);
    TrackIsFollowed(T, F, cfg, s, w, job, script, before);
    assert TrackHolds(cfg, s, w, job, script, before, last + 1) && Follows(cfg, s, w, script, last + 1);
    DriveStops(cfg, Reached(cfg, s, w, script, last + 1), w, script);
  }

  /** The methods below see a drive only through these functions: where it leads, from before step k and
      from the handler. */
  datatype Course = Course(goal: State, from: (State, nat) -> State, handled: State -> State)

  ghost predicate IsCourse(cfg: Config, c: Course, w: nat, script: Script) {
    && (forall s: State, k: nat {:trigger Drive(cfg, s, w, script, k)} :: c.from(s, k) == Drive(cfg, s, w, script, k))
    && (forall s: State {:trigger DriveHandler(cfg, s, w, script)} :: c.handled(s) == DriveHandler(cfg, s, w, script))
  }

  function CourseOf(cfg: Config, w: nat, script: Script, goal: State): (c: Course)
    ensures IsCourse(cfg, c, w, script) && c.goal == goal
  {
    Course(goal, (s: State, k: nat) => Drive(cfg, s, w, script, k), (s: State) => DriveHandler(cfg, s, w, script))
  }

  lemma CourseEnds(cfg: Config, c: Course, s: State, w: nat, script: Script, k: nat)
    requires IsCourse(cfg, c, w, script) && w < |s.workers|
    ensures s.workers[w].pc == Stopped ==> c.from(s, k) == s
    ensures s.workers[w].pc == AtHandler && k <= script.LastStep() ==> c.from(s, k) == c.handled(s)
  {
    assert c.from(s, k) == Drive(cfg, s, w, script, k) && c.handled(s) == DriveHandler(cfg, s, w, script);
  }

  // ------------------------------------------------------------------ process_job

  class Database {
    const cfg: Config
    var s: State
    ghost var trace: seq<Action>
    ghost const reached: seq<Action> -> State

    /** The tables are in a state the protocol reaches. */
    ghost predicate Valid()
      reads this
    {
      s == reached(trace) && forall run {:trigger After(cfg, run)} :: reached(run) == After(cfg, run)
    }

    ghost predicate Ready(c: Course, w: nat, script: Script)
      reads this
    {
      Valid() && w < |s.workers| && script.Fair(w) && IsCourse(cfg, c, w, script)
    }

    constructor (cfg: Config)
      ensures Valid() && this.cfg == cfg && trace == []
    {
      this.cfg := cfg;
      s := Init();
      trace := [];
      reached := (run: seq<Action>) => After(cfg, run);
      new;
      assert After(cfg, []) == Init();
    }

    /** Commit a transaction whose effect on the tables is that of one protocol action. */
    method Commit(next: State, ghost a: Action)
      requires Valid() && next == Apply(cfg, s, a)
      modifies this
      ensures Valid() && s == next && trace == old(trace) + [a]
    {
      RunSnoc(cfg, Init(), trace, a);
      assert After(cfg, trace + [a]) == Apply(cfg, After(cfg, trace), a);
      s := next;
      trace := trace + [a];
    }

    method Interleave(others: seq<Action>, ghost w: nat)
      requires Valid() && w < |s.workers| && OthersOnly(others, w)
      modifies this
      ensures Valid() && s == Run(cfg, old(s), others)
      ensures w < |s.workers| && s.workers[w] == old(s.workers[w])
    {
      assert others[..0] == [];
      for k := 0 to |others|
        invariant Valid() && w < |s.workers| && s.workers[w] == old(s.workers[w])
        invariant s == Run(cfg, old(s), others[..k])
      {
        OthersLeaveWorker(cfg, s, others[k], w);
        RunSnoc(cfg, old(s), others[..k], others[k]);
        Commit(Apply(cfg, s, others[k]), others[k]);
        assert others[..k + 1] == others[..k] + [others[k]];
      }
      assert others[..|others|] == others;
    }

    /** The call stands before step k (or in its handler, or at its end) of a drive towards `goal`. */
    ghost predicate HeadsFor(c: Course, o: Outcome, w: nat, script: Script, k: nat)
      reads this
    {
      Ready(c, w, script) &&
      match o
      case Proceeds => k <= script.LastStep() && c.from(s, k) == c.goal
      case Raised => s.workers[w].pc == AtHandler && c.handled(s) == c.goal
      case Ended => s == c.goal
    }

    /** The point before step k: interference, then this worker goes on, raises or crashes. */
    method Point(ghost c: Course, script: Script, k: nat, w: nat) returns (o: Outcome)
      requires HeadsFor(c, Proceeds, w, script, k)
      requires s.workers[w].pc != Stopped && s.workers[w].pc != AtHandler
      modifies this
      ensures o != Proceeds ==> HeadsFor(c, o, w, script, k)
      ensures o == Proceeds ==> Ready(c, w, script) && s.workers[w] == old(s.workers[w])
      ensures o == Proceeds ==> c.from(Apply(cfg, s, RunWorker(w, script.ChoiceAt(k))), k + 1) == c.goal
    {
      assert Drive(cfg, s, w, script, k) == c.goal;
      Interleave(script.OthersAt(k), w);
      match script.FaultAt(k)
      case Goes =>
        assert Drive(cfg, Apply(cfg, s, RunWorker(w, script.ChoiceAt(k))), w, script, k + 1) == c.goal;
        o := Proceeds;
      case Raises =>
        Commit(SetPc(s, w, AtHandler), RaiseInWorker(w));
        assert DriveHandler(cfg, s, w, script) == c.goal;
        o := Raised;
      case Crashes =>
        Commit(SetPc(s, w, Stopped), CrashWorker(w));
        o := Ended;
    }

    /** The first transaction: a locked read in a fresh session, PREPARING for a QUEUED job. */
    method ClaimTransaction(w: nat, ghost choice: WorkerChoice) returns (job: AIJob?)
      requires Valid() && w < |s.workers| && s.workers[w].pc == AtClaim
      modifies this
      ensures Valid() && s == ClaimStep(old(s), w) && w < |s.workers|
      ensures job == null ==> s.workers[w].pc == Stopped
      ensures job != null ==> fresh(job) && s.workers[w].pc == AtRetrieve && job.status == s.workers[w].cached == Preparing
    {
      ghost var a := RunWorker(w, choice);
      var id := s.workers[w].job;
      if id >= |s.jobs| || s.jobs[id].status != Queued {
        Commit(SetPc(s, w, Stopped), a);
        return null;
      }
      job := new AIJob(s.jobs[id].status, "");
      var r := job.Transition(Preparing, "Preparing job for processing");
      Commit(s.(jobs := WithStatus(s.jobs, id, job.status),
                workers := s.workers[w := Worker(id, job.status, AtRetrieve)],
                owners := s.owners[id := w]), a);
    }

    method ClaimQueued(ghost c: Course, script: Script, w: nat) returns (o: Outcome, job: AIJob?)
      requires HeadsFor(c, Proceeds, w, script, 0) && s.workers[w].pc == AtClaim
      modifies this
      ensures HeadsFor(c, o, w, script, 1)
      ensures o == Proceeds ==>
        job != null && fresh(job) && s.workers[w].pc == AtRetrieve && job.status == s.workers[w].cached == Preparing
    {
      job := null;
      o := Point(c, script, 0, w);
      if o != Proceeds { return; }
      job := ClaimTransaction(w, script.ChoiceAt(0));
      CourseEnds(cfg, c, s, w, script, 1);
      if job == null { o := Ended; }
    }

    /** `_transition` to RETRIEVING on the worker's own job object, committed over the row whatever it holds. */
    method RetrieveTransaction(w: nat, job: AIJob, ghost choice: WorkerChoice)
      requires Valid() && w < |s.workers| && s.workers[w].pc == AtRetrieve && job.status == s.workers[w].cached == Preparing
      modifies this, job
      ensures Valid() && s == RetrieveStep(old(s), w)
      ensures w < |s.workers| && s.workers[w].pc == InPipeline && job.status == s.workers[w].cached == Retrieving
    {
      var r := job.Transition(Retrieving, "Retrieving authoritative data and sources");
      var id := s.workers[w].job;
      RetrieveStepIs(s, w);
      Commit(s.(jobs := WithStatus(s.jobs, id, job.status),
                workers := s.workers[w := Worker(id, job.status, InPipeline)],
                entries := s.entries + [id]), RunWorker(w, choice));
    }

    method BeginRetrieval(ghost c: Course, script: Script, w: nat, job: AIJob) returns (o: Outcome)
      requires HeadsFor(c, Proceeds, w, script, 1) && s.workers[w].pc == AtRetrieve
      requires job.status == s.workers[w].cached == Preparing
      modifies this, job
      ensures HeadsFor(c, o, w, script, 2)
      ensures o == Proceeds ==> s.workers[w].pc == InPipeline && job.status == s.workers[w].cached == Retrieving
    {
      o := Point(c, script, 1, w);
      if o == Proceeds { RetrieveTransaction(w, job, script.ChoiceAt(1)); }
    }

    /** pipeline.execute, which may commit prompt metadata along the way. */
    method RunPipeline(ghost c: Course, script: Script, w: nat) returns (o: Outcome)
      requires HeadsFor(c, Proceeds, w, script, 2) && s.workers[w].pc == InPipeline
      modifies this
      ensures HeadsFor(c, o, w, script, 3 + |script.prompts|)
      ensures o == Proceeds ==> s.workers[w] == old(s.workers[w]).(pc := AtCancelCheck(script.result))
    {
      for k := 0 to |script.prompts|
        invariant HeadsFor(c, Proceeds, w, script, 2 + k) && s.workers[w] == old(s.workers[w])
      {
        o := RecordPrompt(c, script, k, w);
        if o != Proceeds { return; }
      }
      o := Point(c, script, 2 + |script.prompts|, w);
      if o != Proceeds { return; }
      Commit(SetPc(s, w, AtCancelCheck(script.result)), RunWorker(w, script.ChoiceAt(2 + |script.prompts|)));
    }

    method RecordPrompt(ghost c: Course, script: Script, k: nat, w: nat) returns (o: Outcome)
      requires k < |script.prompts|
      requires HeadsFor(c, Proceeds, w, script, 2 + k) && s.workers[w].pc == InPipeline
      modifies this
      ensures HeadsFor(c, o, w, script, 3 + k)
      ensures o == Proceeds ==> s.workers[w] == old(s.workers[w])
    {
      o := Point(c, script, 2 + k, w);
      if o != Proceeds { return; }
      var id := s.workers[w].job;
      var jobs := if id < |s.jobs| then s.jobs[id := s.jobs[id].(prompt := script.prompts[k])] else s.jobs;
      Commit(s.(jobs := jobs), RunWorker(w, script.ChoiceAt(2 + k)));
    }

    /** The cancellation check reads the committed status. */
    method CheckCancellation(ghost c: Course, script: Script, w: nat) returns (o: Outcome)
      requires HeadsFor(c, Proceeds, w, script, 3 + |script.prompts|) && s.workers[w].pc == AtCancelCheck(script.result)
      modifies this
      ensures HeadsFor(c, o, w, script, 4 + |script.prompts|)
      ensures o == Proceeds ==> s.workers[w] == old(s.workers[w]).(pc := AtValidate(script.result))
    {
      o := Point(c, script, 3 + |script.prompts|, w);
      if o != Proceeds { return; }
      ghost var a := RunWorker(w, script.ChoiceAt(3 + |script.prompts|));
      var id := s.workers[w].job;
      if id < |s.jobs| && s.jobs[id].status == Canceled {
        Commit(SetPc(s, w, Stopped), a);
        CourseEnds(cfg, c, s, w, script, 4 + |script.prompts|);
        return Ended;
      }
      Commit(SetPc(s, w, AtValidate(script.result)), a);
    }

    /** `_transition` to VALIDATING, again judged by the job object alone. */
    method BeginValidation(ghost c: Course, script: Script, w: nat, job: AIJob) returns (o: Outcome)
      requires HeadsFor(c, Proceeds, w, script, 4 + |script.prompts|) && s.workers[w].pc == AtValidate(script.result)
      requires job.status == s.workers[w].cached == Retrieving
      modifies this, job
      ensures HeadsFor(c, o, w, script, 5 + |script.prompts|)
      ensures o == Proceeds ==> s.workers[w].pc == AtFinal(script.result) && job.status == s.workers[w].cached == Validating
    {
      o := Point(c, script, 4 + |script.prompts|, w);
      if o != Proceeds { return; }
      var r := job.Transition(Validating, "Validating generated result");
      var id := s.workers[w].job;
      Commit(s.(jobs := WithStatus(s.jobs, id, job.status),
                workers := s.workers[w := Worker(id, job.status, AtFinal(script.result))]),
             RunWorker(w, script.ChoiceAt(4 + |script.prompts|)));
    }

    /** Leave the last transaction with the tables it comes to. */
    method CommitFinal(next: State, w: nat, result: nat, ghost choice: WorkerChoice)
      requires Valid() && w < |s.workers| && s.workers[w].pc == AtFinal(result) && next == FinalStep(cfg, s, w, result)
      modifies this
      ensures Valid() && s == next && w < |s.workers|
    {
      Commit(next, RunWorker(w, choice));
    }

    /** The last transaction: locked read, checks, then output, webhook row and COMPLETED in one commit. */
    method StoreResult(w: nat, job: AIJob, result: nat, ghost choice: WorkerChoice) returns (stored: bool)
      requires Valid() && w < |s.workers| && s.workers[w].pc == AtFinal(result) && job.status == s.workers[w].cached
      modifies this, job
      ensures Valid() && s == FinalStep(cfg, old(s), w, result) && w < |s.workers|
      ensures stored <==> s.workers[w].pc == AtMetrics
      ensures !stored ==> s.workers[w].pc == Stopped || s.workers[w].pc == AtHandler
    {
      var id := s.workers[w].job;
      if id < |s.jobs| && cfg.refresh { job.status := s.jobs[id].status; }
      if id >= |s.jobs| || job.status == Canceled || (cfg.refresh && HasOutput(s.outputs, id)) || job.status == Completed {
        CommitFinal(SetPc(s, w, Stopped), w, result, choice);
        return false;
      }
      var r := job.Transition(Completed, "Job completed");
      if r.InvalidTransition? {
        // The rows added to the session are rolled back with it.
        CommitFinal(SetPc(s, w, AtHandler), w, result, choice);
        return false;
      }
      CommitFinal(s.(jobs := WithStatus(s.jobs, id, job.status),
                     outputs := s.outputs + [OutputRow(id, result)],
                     outbox := s.outbox + [NewRow(id, DeliverResultWebhook, s.now)],
                     workers := s.workers[w := Worker(id, job.status, AtMetrics)]), w, result, choice);
      return true;
    }

    /** From the last locked read to the end of the try block. */
    method Finish(ghost c: Course, script: Script, w: nat, job: AIJob) returns (o: Outcome)
      requires HeadsFor(c, Proceeds, w, script, 5 + |script.prompts|) && s.workers[w].pc == AtFinal(script.result)
      requires job.status == s.workers[w].cached
      modifies this, job
      ensures HeadsFor(c, o, w, script, 6 + |script.prompts|)
      ensures o == Proceeds ==> s.workers[w].pc == AtMetrics
    {
      o := Point(c, script, 5 + |script.prompts|, w);
      if o != Proceeds { return; }
      var stored := StoreResult(w, job, script.result, script.ChoiceAt(5 + |script.prompts|));
      CourseEnds(cfg, c, s, w, script, 6 + |script.prompts|);
      if !stored { o := if s.workers[w].pc == Stopped then Ended else Raised; }
    }

    /** Metrics after the last commit may still raise into the handler. */
    method LeaveTry(ghost c: Course, script: Script, w: nat) returns (o: Outcome)
      requires HeadsFor(c, Proceeds, w, script, 6 + |script.prompts|) && s.workers[w].pc == AtMetrics
      modifies this
      ensures HeadsFor(c, o, w, script, 6 + |script.prompts|) && o != Proceeds
    {
      o := Point(c, script, 6 + |script.prompts|, w);
      if o != Proceeds { return; }
      Commit(SetPc(s, w, Stopped), RunWorker(w, script.ChoiceAt(6 + |script.prompts|)));
      CourseEnds(cfg, c, s, w, script, 7 + |script.prompts|);
      o := Ended;
    }

    /** The except block: a new session, a fresh locked read, FAILED unless already terminal. The
        state machine never rejects that transition. */
    method Handle(ghost c: Course, script: Script, w: nat)
      requires HeadsFor(c, Raised, w, script, 0)
      modifies this
      ensures Valid() && s == c.goal
    {
      ghost var a := RunWorker(w, FinishPipeline(script.result));
      assert DriveHandler(cfg, s, w, script) == c.goal;
      Interleave(script.inHandler, w);
      var id := s.workers[w].job;
      if id < |s.jobs| && s.jobs[id].status !in TERMINAL_JOB_STATES {
        var job := new AIJob(s.jobs[id].status, "");
        var r := job.Transition(Failed, "Job processing failed");
        assert r.Moved?;
        Commit(SetPc(s, w, Stopped).(jobs := WithStatus(s.jobs, id, job.status)), a);
      } else {
        Commit(SetPc(s, w, Stopped), a);
      }
    }

    /** The try block, up to its end, an exception or a crash. */
    method Try(ghost c: Course, w: nat, script: Script) returns (o: Outcome)
      requires HeadsFor(c, Proceeds, w, script, 0) && s.workers[w].pc == AtClaim
      modifies this
      ensures HeadsFor(c, o, w, script, 6 + |script.prompts|) && o != Proceeds
    {
      var job;
      o, job := ClaimQueued(c, script, w);
      if o != Proceeds { return; }
      o := BeginRetrieval(c, script, w, job);
      if o != Proceeds { return; }
      o := RunPipeline(c, script, w);
      if o != Proceeds { return; }
      o := CheckCancellation(c, script, w);
      if o != Proceeds { return; }
      o := BeginValidation(c, script, w, job);
      if o != Proceeds { return; }
      o := Finish(c, script, w, job);
      if o != Proceeds { return; }
      o := LeaveTry(c, script, w);
    }

    /** Whatever the other processes do and wherever this one raises or crashes, the call leaves the
        tables the protocol's worker leaves, and they satisfy the protocol invariant. */
    method ProcessJob(w: nat, script: Script)
      requires Valid() && w < |s.workers| && script.Fair(w) && s.workers[w].pc == AtClaim
      modifies this
      ensures s == Drive(cfg, old(s), w, script, 0)
      ensures Valid() && Inv(cfg, s)
      ensures script.Undisturbed() && IsQueued(old(s), old(s).workers[w].job) ==>
        var job := old(s).workers[w].job;
        Finished(s, job, script.result, PromptAfter(script, old(s).jobs[job].prompt, |script.prompts|))
    {
      assert s == After(cfg, trace);
      AfterInv(cfg, trace);
      if script.Undisturbed() && IsQueued(s, s.workers[w].job) {
        UndisturbedDrive(cfg, s, w, s.workers[w].job, script, s.jobs[s.workers[w].job].prompt);
      }
      ghost var c := CourseOf(cfg, w, script, Drive(cfg, s, w, script, 0));
      var o := Try(c, w, script);
      if o == Raised { Handle(c, script, w); }
      assert s == After(cfg, trace);
      AfterInv(cfg, trace);
    }
  }
}
