/** The status graph of a persisted AI job and its single guarded update
    (app/services/job_state_machine.py). */
module JobStateMachine {

  datatype JobStatus =
    | Queued | Preparing | Retrieving | Planning | Generating | Validating
    | Repairing | Materializing | Completed | Failed | Canceled

  const TERMINAL_JOB_STATES: set<JobStatus> := {Completed, Failed, Canceled}

  function AllowedTransitions(current: JobStatus): set<JobStatus> {
    match current
    case Queued => {Preparing, Canceled, Failed}
    case Preparing => {Retrieving, Planning, Generating, Canceled, Failed}
    case Retrieving => {Planning, Generating, Validating, Canceled, Failed}
    case Planning => {Generating, Canceled, Failed}
    case Generating => {Validating, Repairing, Canceled, Failed}
    case Validating => {Repairing, Materializing, Completed, Canceled, Failed}
    case Repairing => {Validating, Canceled, Failed}
    case Materializing => {Completed, Canceled, Failed}
    case Completed => {}
    case Failed => {}
    case Canceled => {}
  }

  predicate CanTransition(current: JobStatus, target: JobStatus) {
    target in AllowedTransitions(current)
  }

  /** `transition` returns normally: the target is the current status, or an allowed successor. */
  predicate Accepts(current: JobStatus, target: JobStatus) {
    current == target || CanTransition(current, target)
  }

  datatype TransitionResult = Moved(fromStatus: JobStatus, toStatus: JobStatus) | InvalidTransition

  /** The in-memory job object whose fields `transition` assigns. */
  class AIJob {
    var status: JobStatus
    var progressMessage: string
    var progressPercent: int

    constructor (status: JobStatus, message: string)
      ensures this.status == status && progressMessage == message && progressPercent == 0
    {
      this.status := status;
      progressMessage := message;
      progressPercent := 0;
    }

    /** A rejected transition and a stutter leave every field alone. */
    method Transition(target: JobStatus, message: string) returns (r: TransitionResult)
      modifies this
      ensures r.Moved? <==> Accepts(old(status), target)
      ensures r.Moved? ==> r == Moved(old(status), target) && status == target
      ensures old(status) == target || r.InvalidTransition? ==> unchanged(this)
      ensures r.Moved? && old(status) != target ==> progressMessage == message && progressPercent == 0
    {
      var current := status;
      if current == target {
        return Moved(current, target);
      }
      if !CanTransition(current, target) {
        return InvalidTransition;
      }
      status := target;
      progressMessage := message;
      progressPercent := 0;
      return Moved(current, target);
    }
  }

  /** A history of one job in which every step is a successful `transition`. */
  ghost predicate IsHistory(h: seq<JobStatus>) {
    |h| > 0 && forall i :: 0 <= i < |h| - 1 ==> Accepts(h[i], h[i + 1])
  }

  /** No successful transition leaves `region` except into `gate`. */
  ghost predicate ClosedExcept(region: set<JobStatus>, gate: JobStatus) {
    forall a, b :: a in region && Accepts(a, b) ==> b in region || b == gate
  }

  /** A history that starts inside a closed region and ends outside it passes the gate. */
  lemma {:induction false} GateIsPassed(h: seq<JobStatus>, region: set<JobStatus>, gate: JobStatus) returns (k: nat)
    requires IsHistory(h) && ClosedExcept(region, gate)
    requires h[0] in region && h[|h| - 1] !in region
    ensures 0 < k < |h| && h[k] == gate
    decreases |h|
  {
    assert Accepts(h[0], h[1]);
    if h[1] == gate {
      k := 1;
    } else {
      var tail := h[1..];
      assert IsHistory(tail) by {
        forall i | 0 <= i < |tail| - 1 ensures Accepts(tail[i], tail[i + 1]) {
          assert Accepts(h[i + 1], h[i + 2]);
        }
      }
      var k' := GateIsPassed(tail, region, gate);
      k := k' + 1;
    }
  }

  /** Every way from QUEUED to COMPLETED passes PREPARING and, later, VALIDATING,
      despite the VALIDATING/REPAIRING cycle. */
  lemma CompletionPassesPreparingThenValidating(h: seq<JobStatus>) returns (p: nat, v: nat)
    requires IsHistory(h) && h[0] == Queued && h[|h| - 1] == Completed
    ensures 0 < p < v < |h| - 1
    ensures h[p] == Preparing && h[v] == Validating
  {
    p := GateIsPassed(h, {Queued, Failed, Canceled}, Preparing);
    var tail := h[p..];
    assert IsHistory(tail) by {
      forall i | 0 <= i < |tail| - 1 ensures Accepts(tail[i], tail[i + 1]) {
        assert Accepts(h[p + i], h[p + i + 1]);
      }
    }
    var k := GateIsPassed(tail, {Preparing, Retrieving, Planning, Generating, Repairing, Failed, Canceled}, Validating);
    v := p + k;
  }

  /** A status can never be left exactly when it is terminal. */
  lemma TerminalIffAbsorbing(s: JobStatus)
    ensures s in TERMINAL_JOB_STATES <==> forall t :: Accepts(s, t) ==> t == s
  {
    if s !in TERMINAL_JOB_STATES {
      assert Accepts(s, Failed);
    }
  }

  /** The failure handler and the cancel request act on non-terminal statuses only, and there
      both targets are always accepted, so neither ever raises a conflict. */
  lemma FailureAndCancelAcceptedIffNotOtherwiseTerminal(s: JobStatus)
    ensures Accepts(s, Failed) <==> s !in {Completed, Canceled}
    ensures Accepts(s, Canceled) <==> s !in {Completed, Failed}
    ensures s !in TERMINAL_JOB_STATES ==> CanTransition(s, Failed) && CanTransition(s, Canceled)
  {
  }

  /** Nothing leads back into QUEUED, so a claimed job can never be claimed again. */
  lemma {:induction false} QueuedIsNeverReentered(h: seq<JobStatus>, i: nat)
    requires IsHistory(h) && i < |h| && h[i] == Queued
    ensures forall j :: 0 <= j <= i ==> h[j] == Queued
    decreases i
  {
    if i > 0 {
      assert Accepts(h[i - 1], h[i]);
      assert h[i - 1] == Queued;
      QueuedIsNeverReentered(h, i - 1);
    }
  }

  /** COMPLETED can still be reached exactly from the statuses that are not FAILED or CANCELED. */
  lemma CompletedReachableIff(s: JobStatus)
    ensures (exists h: seq<JobStatus> :: IsHistory(h) && h[0] == s && h[|h| - 1] == Completed)
            <==> s !in {Failed, Canceled}
  {
    if s !in {Failed, Canceled} {
      var h := match s
        case Queued => [Queued, Preparing, Retrieving, Validating, Completed]
        case Preparing => [Preparing, Retrieving, Validating, Completed]
        case Retrieving => [Retrieving, Validating, Completed]
        case Planning => [Planning, Generating, Validating, Completed]
        case Generating => [Generating, Validating, Completed]
        case Validating => [Validating, Completed]
        case Repairing => [Repairing, Validating, Completed]
        case Materializing => [Materializing, Completed]
        case Completed => [Completed];
      assert IsHistory(h) && h[0] == s && h[|h| - 1] == Completed;
    } else if h: seq<JobStatus> :| IsHistory(h) && h[0] == s && h[|h| - 1] == Completed {
      AbsorbingHistory(h, |h| - 1);
      assert false;
    }
  }

  lemma {:induction false} AbsorbingHistory(h: seq<JobStatus>, i: nat)
    requires IsHistory(h) && h[0] in TERMINAL_JOB_STATES && i < |h|
    ensures h[i] == h[0]
    decreases i
  {
    if i > 0 {
      AbsorbingHistory(h, i - 1);
      assert Accepts(h[i - 1], h[i]);
    }
  }

  /** Where each status can be entered from. */
  lemma EnteredFrom(s: JobStatus)
    ensures !CanTransition(s, Queued)
    ensures CanTransition(s, Preparing) <==> s == Queued
    ensures CanTransition(s, Retrieving) <==> s == Preparing
    ensures CanTransition(s, Planning) <==> s in {Preparing, Retrieving}
    ensures CanTransition(s, Generating) <==> s in {Preparing, Retrieving, Planning}
    ensures CanTransition(s, Validating) <==> s in {Retrieving, Generating, Repairing}
    ensures CanTransition(s, Repairing) <==> s in {Generating, Validating}
    ensures CanTransition(s, Materializing) <==> s == Validating
    ensures CanTransition(s, Completed) <==> s in {Validating, Materializing}
    ensures CanTransition(s, Failed) <==> s !in {Completed, Failed, Canceled}
    ensures CanTransition(s, Canceled) <==> s !in {Completed, Failed, Canceled}
  {
  }
}
