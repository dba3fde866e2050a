# Verified models of the Baraq AI service

This project models, in Dafny, the parts of the AI service whose behaviour is hardest to see from one
function body, and proves what they promise over all inputs, runs and interleavings.

**The durable job protocol.** `Protocol` is a transition system over the service's tables (jobs, outputs,
outbox rows), API callers, workers, dispatchers, webhook handlers, a broker that may hand out an accepted
message any number of times, and Django. Each action is one committed transaction or one external effect;
a process that is never scheduled again has crashed. Every worker carries the status of its own job object
(`cached`), separate from the committed row, because `_transition` is judged by that copy. `ProtocolInvariant`
states what every state satisfies, `ProtocolPreservation` proves it action by action, `ProtocolTheorems` draws
the results for every run, `OutboxPermanence` says when a DISPATCHED row stays one, `ProtocolWitnesses` gives
runs that show which stronger claims are false. `ProtocolResults` says what the data in tables and payloads is:
results come from the pipelines, prompts from their last record, client ids from the callers.
`JobProcessor` is `process_job` in its imperative form over a mutable job object, proved to leave exactly the
tables the protocol's worker leaves under any interference. `OutboxDispatcher` is the dispatcher object over a
mutable table, proved against functions on rows, and `OutboxRefinement` ties it to the protocol's dispatcher;
`JobStateMachine` is the status graph and its guarded update.

Assumptions of the protocol: all processes share one clock; a locked read returns the committed row (whether a
second locked read also overwrites the object already held by the session is the parameter `refresh`, and the
results hold for both answers); SHA-256 is injective; rows of equal `created_at` are claimed in insertion
order; the broker keeps a message it has accepted.

**Provider failover.** `CircuitBreaker` proves the expiring Redis keys equal to a definition over the call
history; `Generation` proves the candidate and retry loops equal to a flat list of tries cut at the first that
ends the call; `Router` proves the weighted choice a partition of the slots.

**Algorithms.** `Chunker` (with `Text`), `Utf8`, `Query` and `CanonicalRequest` (the signed request),
`KhotaScheduler` (with `Modular`), `RateLimit`, `Retrieval`, `Grounding`, `Idempotency`. `Basics` and
`DecimalText` hold what several of them share.

## Where the code is weaker than what is said of it

- "Terminal states never change" is false of CANCELED and of FAILED: the owning worker writes from its own job
  object. `ProtocolTheorems.TerminalPermanentIff` gives the exact condition;
  `ProtocolWitnesses.CanceledJobCanComplete` and `FailedJobCanComplete` are runs.
- DISPATCHED is not absorbing, since `release_for_retry` has no status guard:
  `OutboxPermanence.DispatchedPermanentIff` gives the exact condition, `ProtocolWitnesses.DispatchedRowCanRegress`
  a run. The handover itself is never taken back (`ProtocolTheorems.DispatchedWasHandedOver`).
- `canonical_request_target` is not idempotent: `CanonicalRequest.CanonicalTwiceIff` gives the exact condition,
  `FourSlashesAreRefused` an input.
- The idempotency scope is injective on client ids without a colon, not in general:
  `Idempotency.ScopeExclusiveIff`; `ProtocolWitnesses.TwoUsersCanShareAJob` is a run.
- The fall-through of `_select_account` is reachable with negative weights: `Router.FallThroughUnreachableIff`,
  `NegativeWeightFallsThrough`.
- The context budget does not count the separators between blocks: `Retrieval.OverrunsIff`, `BudgetCanBeOverrun`.
- The schema bounds do not follow from a valid study request: `KhotaScheduler.BuildsIff`, `LongDaysAreRefused`.
  A plan that ends on the last date there is overflows the cursor: `KhotaScheduler.BuildPlanDays`.

## Model

| member | source | states |
|---|---|---|
| JobStateMachine.AIJob.Transition | app/services/job_state_machine.py:71-86 | moves exactly when the target is the current status or an allowed successor; a stutter or a refusal leaves every field alone |
| JobStateMachine.GateIsPassed | app/services/job_state_machine.py:11-49 | a history that leaves a region closed except for a gate passes the gate |
| JobStateMachine.CompletionPassesPreparingThenValidating | app/services/job_state_machine.py:11-49 | every history from QUEUED to COMPLETED visits PREPARING and later VALIDATING, despite the repair cycle |
| JobStateMachine.TerminalIffAbsorbing | app/services/job_state_machine.py:9-49 | the terminal statuses are exactly those that can never be left |
| JobStateMachine.FailureAndCancelAcceptedIffNotOtherwiseTerminal | app/services/job_processor.py:187-191 | FAILED and CANCELED are accepted exactly when the job is not in another terminal status, so the failure handler and cancel never raise a conflict |
| JobStateMachine.QueuedIsNeverReentered | app/services/job_state_machine.py:11-49 | a history that is at QUEUED has never been anywhere else |
| JobStateMachine.CompletedReachableIff | app/services/job_state_machine.py:11-49 | COMPLETED is reachable exactly from the statuses other than FAILED and CANCELED |
| JobStateMachine.AbsorbingHistory | app/services/job_state_machine.py:71-86 | successful transitions from a terminal status only stutter |
| JobStateMachine.EnteredFrom | app/services/job_state_machine.py:11-49 | from where each status can be entered |
| OutboxRows.RetryDelayBounds | app/services/outbox_dispatcher.py:80-82 | the delay stays in [1, cap], never decreases, doubles up to the cap and is constant from the sixteenth attempt |
| OutboxRows.Pow2Values | app/services/outbox_dispatcher.py:80-82 | the delays go 1, 2, 4, 8, ... and are cut at 65536 |
| OutboxRows.ReleasedRowIs | app/services/outbox_dispatcher.py:74-87 | a released row is PENDING and unlocked, available at now + min(2^min(attempts, 16), cap), with the first 200 characters of the error; the rest stands |
| OutboxRows.MarkedRowIs | app/services/outbox_dispatcher.py:63-72 | a marked row is DISPATCHED now, unlocked and without error; the rest stands |
| OutboxRows.ClaimedRowIs | app/services/outbox_dispatcher.py:56-60 | a claimed row is DISPATCHING, locked now, with one attempt more; the rest stands |
| OutboxRows.RecoveredRowIs | app/services/outbox_dispatcher.py:23-36 | a row loses its lock exactly when it is DISPATCHING and locked before now less the timeout; the rest stands |
| OutboxRows.ClaimQueryTakesOldest | app/services/outbox_dispatcher.py:42-55 | a claim returns min(limit, available) available rows, in creation order, before any row it leaves out |
| OutboxRows.ClaimedWereDue | app/services/outbox_dispatcher.py:42-55 | a claimed row was PENDING, due and not locked by another transaction; one that was and is not claimed is younger than all claimed |
| OutboxDispatcher.Dispatcher.RecoverStaleLocks | app/services/outbox_dispatcher.py:23-36 | afterwards no lock is stale; every stale row lost its lock and kept its attempts and availability, every other row is untouched, and the answer counts the stale ones |
| OutboxDispatcher.Dispatcher.ClaimPending | app/services/outbox_dispatcher.py:38-61 | exactly the claimed rows become DISPATCHING, locked now, with one attempt more |
| OutboxDispatcher.Dispatcher.MarkDispatched | app/services/outbox_dispatcher.py:63-72 | only the named row changes: DISPATCHED now, unlocked, its error cleared; an unknown row changes nothing |
| OutboxDispatcher.Dispatcher.ReleaseForRetry | app/services/outbox_dispatcher.py:74-87 | the named row becomes PENDING after the backoff, whatever its status, and keeps the name of the error |
| OutboxDispatcher.HandledIs | app/services/outbox_dispatcher.py:105-109 | the events that get their turn are those before the first exception the loop does not catch |
| OutboxDispatcher.SettledAt | app/services/outbox_dispatcher.py:105-112 | each event is settled once, by its own outcome, and no other row is touched |
| OutboxDispatcher.Dispatcher.PublishOne | app/services/outbox_dispatcher.py:106-112 | one event is marked, kept locked, released or left, by outcome and kind |
| OutboxDispatcher.Dispatcher.Publish | app/services/outbox_dispatcher.py:104-120 | the loop settles exactly the handled events |
| OutboxDispatcher.Dispatcher.DispatchPending | app/services/outbox_dispatcher.py:95-120 | one round, with the clock read anew at every statement, recovers, claims and settles; it states field by field what each row is left as, refused, accepted and unreached ones apart; the answer counts the accepted events, or an uncaught exception leaves the later rows locked |
| OutboxDispatcher.RoundLeavesRow | app/services/outbox_dispatcher.py:95-120 | a refused row waits as PENDING for its backoff with one attempt more, an accepted process row is DISPATCHED at its time, an accepted webhook row and every row from the first uncaught exception on stays DISPATCHING under the claim lock |
| OutboxDispatcher.OnlyAcceptedIsDispatched | app/services/outbox_dispatcher.py:106-107 | a row becomes DISPATCHED only if it is a claimed process event that the broker accepted |
| OutboxRefinement.DispatcherDoesRound | app/services/outbox_dispatcher.py:95-120 | the step-by-step dispatcher of the protocol, run alone, leaves exactly the table of one round, whatever the broker answers |
| OutboxDispatcher.CalmRoundEffect | app/services/outbox_dispatcher.py:95-120 | without stale locks an accepted round changes exactly the claimed rows |
| OutboxDispatcher.RoundTakesABatch | app/services/outbox_dispatcher.py:38-61 | one round takes min(batch, n) of n PENDING rows |
| OutboxDispatcher.RoundTakesOldest | app/services/outbox_dispatcher.py:50-51 | and never a younger one before an older one |
| OutboxDispatcher.RoundStaysCalm | app/services/outbox_dispatcher.py:95-120 | a round makes no lock stale and no row unavailable before the horizon |
| OutboxDispatcher.RoundsDrain | app/services/outbox_dispatcher.py:95-120 | k rounds leave n rows less k full batches |
| OutboxDispatcher.DrainedAfterCeilingRounds | app/services/outbox_dispatcher.py:95-120 | no row is left PENDING exactly from the ceiling of n / batch rounds on |
| OutboxDispatcher.RoundsNeededIsCeiling | app/services/outbox_dispatcher.py:95-120 | the number of rounds in that result is the ceiling |
| Idempotency.ScopeInjectiveOnColonFreeClients | app/core/idempotency.py:13-15 | pairs of user and client id without a colon in the client id never share a scope |
| Idempotency.ScopeExclusiveIff | app/core/idempotency.py:13-15 | a pair owns its scope among all pairs exactly when neither part holds a colon |
| ProtocolPreservation.ClaimKeepsInv | app/services/job_processor.py:84-95 | the locked claim of a QUEUED job keeps the protocol invariant |
| ProtocolPreservation.RetrieveKeepsInv | app/services/job_processor.py:107-121 | the RETRIEVING write from the cached copy and the entry into the pipeline keep it |
| ProtocolPreservation.ValidateKeepsInv | app/services/job_processor.py:126-128 | the VALIDATING write from the cached copy keeps it |
| ProtocolPreservation.FinalKeepsInv | app/services/job_processor.py:130-179 | the last transaction keeps it: output, webhook row and COMPLETED together or nothing |
| ProtocolPreservation.HandlerKeepsInv | app/services/job_processor.py:184-197 | the failure handler keeps it |
| ProtocolPreservation.WorkerStepKeepsInv | app/services/job_processor.py:75-200 | every commit of a worker keeps it |
| ProtocolPreservation.CreatorStepKeepsInv | app/services/job_service.py:101-156 | every transaction of concurrent create_job calls keeps it |
| ProtocolPreservation.CancelKeepsInv | app/services/job_service.py:216-232 | a cancel request keeps it |
| ProtocolPreservation.DispatcherStepKeepsInv | app/services/outbox_dispatcher.py:95-120 | every step of a dispatcher, its broker calls included, keeps it |
| ProtocolPreservation.DeliveryStepKeepsInv | app/services/webhook_delivery.py:62-98 | every step of a webhook handler, sending included, keeps it |
| ProtocolPreservation.ApplyKeepsInv | app/services/job_processor.py:75-200 | every action of every process, raises and crashes included, keeps it |
| ProtocolPreservation.AfterInv | app/services/job_processor.py:75-200 | it holds after every run from the empty database |
| ProtocolTheorems.CompletedIffOutputIffWebhook | app/services/job_processor.py:129-179 | after every run a job is COMPLETED iff it has an output iff it has a webhook row, at most one of each, and exactly one process row |
| ProtocolTheorems.GuardsNeverFire | app/services/webhook_delivery.py:75-80 | no handler ever raises one of the ValueErrors, no create_job call ever re-raises the integrity error |
| ProtocolTheorems.PipelineEnteredAtMostOnce | app/services/job_processor.py:84-121 | the pipeline body of a job is entered at most once however often its message is delivered |
| ProtocolTheorems.TerminalPermanentIff | app/services/job_processor.py:44-50 | a terminal status survives every continuation exactly when the owner has no outstanding write over it |
| ProtocolTheorems.OverwritableIsOverwritten | app/services/job_processor.py:107-128 | where the owner has one, its next steps do overwrite the status |
| ProtocolTheorems.RunKeepsSettled | app/services/job_processor.py:107-134 | where it has none, no run changes the status |
| ProtocolTheorems.SettledCancelHasNoOutput | app/services/job_processor.py:122-134 | a settled CANCELED job never gets an output or a webhook row |
| ProtocolTheorems.RunGrows | app/services/outbox_dispatcher.py:95-120 | outputs, handovers and acknowledgements are never taken back and a job never changes owner |
| ProtocolTheorems.DispatchedWasHandedOver | app/services/outbox_dispatcher.py:105-119 | a DISPATCHED process row was accepted by the broker, a DISPATCHED webhook acknowledged by Django, and this stays so |
| ProtocolTheorems.MaterialisedIsReceived | app/services/webhook_delivery.py:23-28 | a receiver keyed on the event id holds exactly the events it received |
| ProtocolTheorems.ResultsMaterialiseAtMostOnce | app/services/webhook_delivery.py:23-59 | all sends of one webhook row carry one payload, and each job materialises at most once, with its stored result |
| ProtocolResults.CarriedIsReturned | app/services/job_processor.py:113-121 | what a worker carries to its last transaction its own pipeline body has returned |
| ProtocolResults.OutputIsReturned | app/services/job_processor.py:139-141 | every stored result was returned, at some step of the run, by the pipeline of the job's owner, inside its body |
| ProtocolResults.PromptIsLastRecorded | app/pipelines/kholasa.py:49-51 | the prompt columns of a job are those last recorded for it |
| ProtocolResults.JobHasCaller | app/services/job_service.py:101-156 | every job was created by a caller and carries its client id |
| ProtocolResults.NewRowIs | app/services/job_processor.py:168-179 | a row is added for a process event together with its job, or for a webhook together with the output it delivers; it is PENDING, due at once, never tried |
| ProtocolResults.PayloadTellsTheJob | app/services/webhook_delivery.py:23-59 | whatever Django receives names the job by its creator's client id if there is one and by its own id otherwise, with the prompt last recorded and the result the pipeline returned |
| ProtocolResults.CancelDoes | app/services/job_service.py:216-232 | a cancel makes any non-terminal job of that client CANCELED and changes nothing else |
| ProtocolResults.HandlerDoes | app/services/job_processor.py:184-197 | the failure handler makes its job FAILED unless it is terminal, and stops |
| ProtocolResults.AcknowledgedSendDoes | app/services/webhook_delivery.py:82-98 | an acknowledged send has reached Django, and the next step marks the row |
| ProtocolResults.FailedSendDoes | app/services/webhook_delivery.py:82-90 | a send that failed puts the row back after the backoff in the next step, received or not |
| ProtocolTheorems.UndispatchedBecomesClaimable | app/services/outbox_dispatcher.py:23-55 | any row not DISPATCHED and left alone is claimable, after recovery, once more than the larger of lock timeout and retry cap has passed |
| ProtocolTheorems.UndispatchedIsClaimedInTurn | app/services/outbox_dispatcher.py:38-61 | the next round takes such a row, unless a full batch of older rows goes first |
| ProtocolTheorems.ShortClaimIsComplete | app/services/outbox_dispatcher.py:42-55 | a claim shorter than its limit has taken every available row |
| ProtocolTheorems.LocksAndAttempts | app/services/outbox_dispatcher.py:56-71 | locked_at is set iff the row is DISPATCHING, dispatched_at whenever it is DISPATCHED, attempt_count is the number of claims |
| ProtocolTheorems.CompletedResultIsDeliveredOrRetried | app/services/outbox_dispatcher.py:96-101 | a generated result is never lost: its webhook was acknowledged or becomes claimable again |
| ProtocolTheorems.OneJobPerScope | app/services/job_service.py:101-156 | however create_job calls interleave, a scope has at most one job, created by at most one call |
| ProtocolTheorems.AnswersAgreeWithScopes | app/services/job_service.py:186-193 | two answered callers have one job iff they share a scope, then with equal input hashes; a conflict means another input than every answered caller of that scope |
| ProtocolTheorems.SameJobIffSameCaller | app/services/job_service.py:86-156 | with colon-free client ids, callers get one job iff user and client id agree |
| ProtocolWitnesses.CanceledJobCanComplete | app/services/job_processor.py:107-112 | a run in which a committed CANCELED becomes COMPLETED |
| ProtocolWitnesses.FailedJobCanComplete | app/services/job_processor.py:184-195 | a run in which a committed FAILED becomes COMPLETED |
| ProtocolWitnesses.DispatchedRowCanRegress | app/services/outbox_dispatcher.py:74-87 | a run in which a DISPATCHED row goes back to PENDING |
| ProtocolWitnesses.TwoUsersCanShareAJob | app/core/idempotency.py:13-15 | a run in which two users get one job through client ids with colons |
| OutboxPermanence.RunKeepsShelved | app/services/outbox_dispatcher.py:63-87 | a DISPATCHED row that no dispatcher and no handler holds any more stays DISPATCHED in every run |
| OutboxPermanence.HolderReleases | app/services/outbox_dispatcher.py:104-109 | a dispatcher that has the event ahead of it can come to release it |
| OutboxPermanence.SenderReleases | app/services/webhook_delivery.py:82-90 | a handler about to send or release the event can come to release it |
| OutboxPermanence.DispatchedPermanentIff | app/services/outbox_dispatcher.py:63-87 | a DISPATCHED row survives every continuation exactly when no dispatcher has the event ahead of it and no handler is about to send or release it |
| ProtocolTheorems.OthersLeaveWorker | app/services/job_processor.py:44-50 | other processes neither move a worker nor touch its job object |
| JobProcessor.Database.ClaimTransaction | app/services/job_processor.py:83-95 | the first transaction is the protocol's claim: PREPARING in row and object exactly for a QUEUED job |
| JobProcessor.Database.ClaimQueued | app/services/job_processor.py:83-95 | goes on exactly with a QUEUED job, now PREPARING in the row and in the object |
| JobProcessor.Database.RetrieveTransaction | app/services/job_processor.py:107-112 | the write commits the object's RETRIEVING over the row whatever it holds |
| JobProcessor.Database.BeginRetrieval | app/services/job_processor.py:107-112 | writes RETRIEVING over the row from the object's status |
| JobProcessor.Database.RunPipeline | app/services/job_processor.py:113-121 | the pipeline's prompt commits leave the object and the worker's place alone |
| JobProcessor.Database.CheckCancellation | app/services/job_processor.py:122-123 | stops iff the committed status is CANCELED |
| JobProcessor.Database.BeginValidation | app/services/job_processor.py:126-128 | writes VALIDATING over the row from the object's status |
| JobProcessor.Database.StoreResult | app/services/job_processor.py:130-179 | stores output, webhook row and COMPLETED together, or stops, or rolls back into the handler |
| JobProcessor.Database.Handle | app/services/job_processor.py:184-197 | a fresh locked read, FAILED unless terminal |
| JobProcessor.Database.Try | app/services/job_processor.py:82-183 | the try block, left at its end, by an exception into the handler, or by a crash |
| JobProcessor.Database.ProcessJob | app/services/job_processor.py:75-200 | under any interference, raise or crash the call leaves the tables the protocol's worker leaves, and they satisfy the invariant; undisturbed, a QUEUED job ends COMPLETED with its pipeline's result stored and the last prompt recorded |
| JobProcessor.UndisturbedDrive | app/services/job_processor.py:75-181 | without faults, and with others that leave the job alone, a QUEUED job is COMPLETED with the result its pipeline returned |
| CircuitBreaker.StreakIsLongest | app/providers/circuit_breaker.py:31-35 | the streak is the longest run of failures ending the history with gaps under twice the cooldown |
| CircuitBreaker.OpenAfterMeansOpenByHistory | app/providers/circuit_breaker.py:22-40 | the open key says open exactly when some failure tripped the threshold less than a cooldown ago with no success after it |
| CircuitBreaker.FailureKeepsKeys | app/providers/circuit_breaker.py:31-40 | recording a failure keeps all keys of all accounts in agreement with the history |
| CircuitBreaker.SuccessKeepsKeys | app/providers/circuit_breaker.py:28-29 | recording a success does too |
| CircuitBreaker.ProviderCircuitBreaker.IsOpen | app/providers/circuit_breaker.py:22-26 | answers by the history definition |
| CircuitBreaker.ProviderCircuitBreaker.Failures | app/providers/circuit_breaker.py:31-35 | the visible counter is the streak alive at that time |
| CircuitBreaker.ProviderCircuitBreaker.RecordSuccess | app/providers/circuit_breaker.py:28-29 | adds one success to the history the keys agree with |
| CircuitBreaker.ProviderCircuitBreaker.RecordFailure | app/providers/circuit_breaker.py:31-40 | adds one failure to the history the keys agree with |
| CircuitBreaker.OpenMeansRecentStreak | app/providers/circuit_breaker.py:31-40 | an open breaker has seen a threshold of consecutive close failures, the last within a cooldown |
| CircuitBreaker.OtherAccountsUntouched | app/providers/circuit_breaker.py:16-20 | a call on one account changes no other account's streak or state |
| CircuitBreaker.ClosedAfterCooldown | app/providers/circuit_breaker.py:36-40 | without a failure in the last cooldown the breaker is closed |
| Generation.TryOnce | app/services/generation.py:51-127 | one attempt: its row, what the breaker is told, whether the call is over; a bookkeeping exception after a success makes it FAILED |
| Generation.TryCandidate | app/services/generation.py:50-127 | the inner loop makes all tries on a candidate or ends the call with one of them |
| Generation.RunLoops | app/services/generation.py:45-127 | the loops make exactly the tries up to the first that ends the call |
| Generation.Generate | app/services/generation.py:43-134 | attempts, breaker calls and answer are those of exactly these tries; the calls divide among the attempts as their outcomes say, and a returned call ends on the success of the account it returns from |
| Generation.TriesAreAll | app/services/generation.py:45-53 | the tries are max(1, max_retries + 1) of each candidate with instance and budget, and no others |
| Generation.AttemptsAreHeard | app/services/generation.py:79-125 | the breaker calls go attempt by attempt, on its account: a failure exactly after an unexpected error or a retryable one with fallback, a success exactly after a success or before a failed bookkeeping |
| Generation.OnlySuccessHeardIff | app/services/generation.py:85-112 | an attempt's only call is a success exactly when it SUCCEEDED or its bookkeeping failed with an application error that ends the call |
| Generation.ReturnIsHeard | app/services/generation.py:85-96 | a call that returns ends on a success of the last attempt's account |
| Generation.AnswerIsOfLast | app/services/generation.py:96-134 | what is returned or raised is that of the last attempt, otherwise that all providers failed |
| Generation.LogIsOrdered | app/services/generation.py:45-60 | attempts are numbered consecutively, grouped in candidate order, at most max_retries + 1 per eligible candidate, all but the last FAILED |
| Generation.ReturnsIffLastSucceeded | app/services/generation.py:79-96 | the call returns iff its last attempt SUCCEEDED |
| Generation.NonRetryableStops | app/services/generation.py:97-112 | a non-retryable application error is the last attempt and the answer |
| Generation.NoFallbackMeansOneAttempt | app/services/generation.py:109-125 | without fallback there is at most one attempt, and one iff a candidate is eligible |
| Generation.GivesUpOnlyWhenExhausted | app/services/generation.py:128-134 | with fallback all tries of all eligible candidates are made before the call gives up |
| Router.SelectAccount | app/providers/router.py:104-119 | the first account whose cursor passes the slot, the last one if none does, the first one in the special cases |
| Router.ChosenIsUnique | app/providers/router.py:104-119 | routing key and weights determine the account |
| Router.ReachesIffInRange | app/providers/router.py:113-118 | with non-negative weights account i owns exactly its interval of slots |
| Router.ChosenInProportion | app/providers/router.py:110-118 | account i is chosen for exactly weight_i of the slots, a zero weight never |
| Router.FallThroughUnreachableIff | app/providers/router.py:110-119 | the fall-through is dead exactly when no positive weight follows a negative one |
| Router.NegativeWeightFallsThrough | app/providers/router.py:110-119 | with weights -1 and 5 nobody owns slot 4 |
| Router.LiveIs | app/providers/router.py:141-143 | the live accounts are exactly those with a closed circuit |
| Router.LiveKeepsOrder | app/providers/router.py:141-143 | they stand in their old order, each as often as before |
| Router.UsableIff | app/providers/router.py:138-145 | a spec is usable iff it is supported and some account of it has a closed circuit |
| Router.CollectCandidates | app/providers/router.py:136-163 | one candidate per usable spec in routing order, on the weighted choice among its live accounts |
| Router.CandidateIsLive | app/providers/router.py:141-146 | no candidate is on an account with an open circuit |
| Router.OrderedCandidates | app/providers/router.py:121-170 | that list, an error iff no spec is usable, only its first candidate without fallback |
| Chunker.SplitReassembles | app/rag/chunker.py:115-117 | the first chunk_size - overlap characters of the parts put the text back together |
| Chunker.SplitOverlaps | app/rag/chunker.py:115-117 | each part goes on with the end of the one before |
| Chunker.PartsFit | app/rag/chunker.py:115-117 | parts are non-empty and at most chunk_size long |
| Chunker.PartIs | app/rag/chunker.py:115-117 | part k starts at k * (chunk_size - overlap) |
| Chunker.PartsAreAll | app/rag/chunker.py:115-117 | and the parts go on to the end of the text |
| Chunker.TailIs | app/rag/chunker.py:112-113 | the tail is the last overlap characters, or the whole of a shorter text |
| Chunker.ClosesExactlyWhenFull | app/rag/chunker.py:43-72 | a unit joins the pending text exactly when both fit; otherwise the pending text is emitted |
| Chunker.ChunksOverlap | app/rag/chunker.py:36-85 | over a whole document each raw chunk starts with the tail of the one before it, across pages, unless that one is a part of a cut unit |
| Chunker.AddPagesCovers | app/rag/chunker.py:36-85 | raw chunks are numbered, bounded, and cover every unit on its own page |
| Chunker.DedupResult | app/rag/chunker.py:87-103 | indices 0..n-1, texts stripped, non-empty, distinct; every non-blank raw text is among them |
| Chunker.ReturnedCarries | app/rag/chunker.py:87-103 | a returned chunk has page, section and estimate of the first raw chunk with its text |
| Chunker.EstimateIs | app/rag/chunker.py:20-22 | an estimate is max(1, length / 3) |
| Chunker.ChunkingLosesNothing | app/rag/chunker.py:32-117 | every unit lies inside a returned chunk or all its parts are returned up to stripping and duplicates; lengths at most max(chunk_size, overlap + 1 + longest unit) |
| Chunker.ArabicAwareChunker.Create | app/rag/chunker.py:26-30 | a chunker exists exactly when the overlap is smaller than the chunk size |
| Chunker.ArabicAwareChunker.Chunk | app/rag/chunker.py:32-104 | the loops compute the chunks those results speak of |
| Chunker.ArabicAwareChunker.ChunkPage | app/rag/chunker.py:36-85 | one page advances output and carry as specified |
| Chunker.ArabicAwareChunker.EmitParts | app/rag/chunker.py:59-71 | a cut unit appends its parts, numbered on |
| Chunker.ArabicAwareChunker.RemoveDuplicates | app/rag/chunker.py:87-104 | first occurrences of stripped non-empty texts, renumbered |
| Text.StripKeeps | app/rag/chunker.py:40-47 | stripping never cuts into a stripped unit |
| Text.StripIs | app/rag/chunker.py:40-47 | stripping takes nothing but white space |
| Utf8.DecodeOfEncoded | app/core/security.py:48-49 | UTF-8 decoding undoes encoding for every string |
| Utf8.EncodeInjective | app/core/security.py:74 | the encoded request determines its text |
| Utf8.DecodeHeadIs | app/core/security.py:48-49 | nothing but its encoding decodes to a character; overlong forms and surrogates are replaced |
| Query.UnquoteOfQuoted | app/core/security.py:48-49 | percent-decoding undoes percent-encoding for every string |
| Query.ReadOfPrintedPairs | app/core/security.py:46-50 | parsing undoes printing for every list of pairs, blanks and repetitions included |
| Query.QuoteByteIs | app/core/security.py:49 | an unreserved byte is printed as itself, any other as a percent sign and two upper-case digits of its value |
| Query.HexValuesCountUp | app/core/security.py:47-49 | the sixteen digits count up, lower case as upper case |
| Query.UnquotePercent | app/core/security.py:47 | a percent sign with two digits of either case is read as their value |
| Query.UnquoteLiteral | app/core/security.py:47 | any other character stands for itself |
| Query.PlusToSpaceIs | app/core/security.py:47 | a plus sign is read as a space |
| Query.ReadPairsIs | app/core/security.py:47 | pieces are cut at ampersands and empty ones skipped |
| Query.ReadPairIs | app/core/security.py:47 | a piece is cut at its first equals sign; without one the value is blank |
| Query.PrintPairsIs | app/core/security.py:49 | pairs are printed in their order as name=value, joined by ampersands |
| Query.TextLeqIs | app/core/security.py:49 | texts are ordered by the first code point in which they differ, a prefix first |
| Query.PairLeqIs | app/core/security.py:49 | pairs are ordered by name, then by value |
| Query.SortSorts | app/core/security.py:49 | sorting returns the same pairs in order |
| Query.SortedIsUnique | app/core/security.py:49 | a multiset of pairs has one sorted arrangement |
| Query.SortsEqualIff | app/core/security.py:49 | two lists sort alike iff they hold the same pairs equally often |
| CanonicalRequest.ReadPrinted | app/core/security.py:43-50 | splitting a printed target gives its path and pairs back |
| CanonicalRequest.ReadsPathAndQuery | app/core/security.py:43-46 | the path ends at the question mark, the query at the number sign |
| CanonicalRequest.Refuses | app/core/security.py:43-45 | a target without a leading slash, or with an authority, is refused |
| CanonicalRequest.CleanIs | app/core/security.py:43 | controls and spaces in front are dropped |
| CanonicalRequest.LineControlIsDropped | app/core/security.py:43 | a tab or line break is dropped, any other character kept |
| CanonicalRequest.LineControlsAreDropped | app/core/security.py:43 | tabs and line breaks are dropped character by character |
| CanonicalRequest.SameCanonicalFormIff | app/core/security.py:36-50 | accepted targets share a canonical form iff they have the same path and the same multiset of decoded pairs |
| CanonicalRequest.DoubleSlashIff | app/core/security.py:43-45 | an accepted path opens with two slashes iff the cleaned target opens with four |
| CanonicalRequest.EmptyAuthorityIsSkipped | app/core/security.py:43-45 | an empty authority in front of a target is read away |
| CanonicalRequest.CanonicalTwiceIff | app/core/security.py:36-50 | canonicalising twice changes nothing iff the cleaned target does not open with four slashes |
| CanonicalRequest.FourSlashesAreRefused | app/core/security.py:43-45 | an input whose canonical form is itself refused |
| DecimalText.DecimalReadBack | app/core/security.py:68 | the printed timestamp determines the timestamp and has no line break |
| DecimalText.DecimalIsPlain | app/core/security.py:68 | it is printed in digits without a leading zero, after a minus sign if negative |
| CanonicalRequest.CanonicalTargetIsOneLine | app/core/security.py:36-50 | a canonical target never holds a line break |
| CanonicalRequest.JoinInjective | app/core/security.py:63-74 | joining one-line fields by line breaks is injective |
| CanonicalRequest.SameBytesIff | app/core/security.py:53-74 | requests of one-line fields have the same bytes to sign iff service, key, timestamp, nonce, upper-cased method, body hash, path and pairs agree |
| CanonicalRequest.BytesAreFrame | app/core/security.py:53-74 | the decoded bytes are eight lines: scheme, service, key id, the plain digits of the timestamp, nonce, upper-cased method, canonical target, body hash |
| CanonicalRequest.LinesOfJoin | app/core/security.py:63-74 | joined one-line fields are read again one by one |
| CanonicalRequest.UpperAppend | app/core/security.py:70 | the method is upper-cased character by character |
| CanonicalRequest.LineBreaksCanCollide | app/core/security.py:63-74 | with line breaks in fields two requests share their bytes |
| Modular.DivModAreOperators | app/services/khota_scheduler.py:48-51 | quotient and remainder by repeated subtraction are the division operators |
| Modular.CyclesAreBalanced | app/services/khota_scheduler.py:48-51 | going round a list of distinct members uses any two equally often, give or take one |
| Modular.PositionsAreBalanced | app/services/khota_scheduler.py:48-51 | going round any list uses its positions equally often, give or take one |
| KhotaScheduler.SessionStep | app/services/khota_scheduler.py:46-73 | the inner loop runs exactly while sessions of the closed form remain and takes their minutes |
| KhotaScheduler.SessionsByDivision | app/services/khota_scheduler.py:46-73 | a day has daily div p sessions and one more if daily mod p is at least 10, and totals daily minus the unusable remainder |
| KhotaScheduler.DayTotal | app/services/khota_scheduler.py:76-82 | the tasks of a scheduled day add up to that total, within ten minutes of the daily time |
| KhotaScheduler.DatesAreExact | app/services/khota_scheduler.py:39-45 | the planned dates are exactly the dates of the period not excluded, in increasing order |
| KhotaScheduler.PlannedTasksAre | app/services/khota_scheduler.py:46-75 | every task of a plan: its subject and topic, a review exactly every third session, HIGH exactly up to fourteen days before the subject's exam, whole sessions before the rest |
| KhotaScheduler.WordingIs | app/services/khota_scheduler.py:34-36 | the topics given, otherwise the weak ones, otherwise one made of each subject |
| KhotaScheduler.TrimTakesWhite | app/schemas/common.py:11 | the schema's trimming takes only white space |
| KhotaScheduler.TrimLeavesNone | app/schemas/common.py:11 | and leaves none at either end |
| KhotaScheduler.MakeTask | app/services/khota_scheduler.py:48-72 | the task is the closed form's: subject (d + s) mod S, topic (d * m + s) mod T |
| KhotaScheduler.BuildTasks | app/services/khota_scheduler.py:46-75 | a day's tasks, or a refusal iff one of them breaks its schema |
| KhotaScheduler.BuildDay | app/services/khota_scheduler.py:44-82 | a day of the closed form, or a refusal iff it or a task breaks its schema |
| KhotaScheduler.VisitDate | app/services/khota_scheduler.py:41-83 | one turn of the outer loop: an excluded date is skipped, any other adds its day or ends in a refusal |
| KhotaScheduler.SoFarIsMade | app/services/khota_scheduler.py:41-83 | the outer loop makes the days of exactly the planned dates |
| KhotaScheduler.LoopResultIs | app/services/khota_scheduler.py:37-84 | what the outer loop comes to is the closed form |
| KhotaScheduler.BuildDays | app/services/khota_scheduler.py:37-84 | the loop's plan, a validation error at the first refused day, or the overflow of the cursor behind the last date |
| KhotaScheduler.BuildPlan | app/services/khota_scheduler.py:37-84 | the closed form: the plan, the validation error iff some day or task breaks its schema, the overflow iff it would end on the last date |
| KhotaScheduler.BuildPlanDays | app/services/khota_scheduler.py:32-84 | the same for the request's topics, falling back to weak topics and subjects |
| KhotaScheduler.BuildsIff | app/schemas/khota.py:51-73 | a valid request builds iff no planned day has more than twenty sessions and every used subject and topic has an admitted length |
| KhotaScheduler.LongDaysAreRefused | app/schemas/khota.py:57-60 | a valid request of 720 minutes in sessions of 15 is refused |
| KhotaScheduler.TopicsCycle | app/services/khota_scheduler.py:51-74 | through the plan the topics go round, across sessions and days |
| KhotaScheduler.SubjectsCycle | app/services/khota_scheduler.py:48-50 | within a day the subjects go round from the day's number |
| KhotaScheduler.TopicsAreBalanced | app/services/khota_scheduler.py:51-74 | planned task i takes the topic at position i mod T, and over the plan the positions are used equally often, give or take one |
| KhotaScheduler.DistinctTopicsAreBalanced | app/services/khota_scheduler.py:51-74 | so topics that are distinct once trimmed are used equally often, give or take one |
| KhotaScheduler.SubjectsAreBalanced | app/services/khota_scheduler.py:48-50 | task s of day d takes the subject at position (d + s) mod S, and within the day the positions are used equally often, give or take one |
| KhotaScheduler.DistinctSubjectsAreBalanced | app/services/khota_scheduler.py:48-50 | so distinct subjects are used equally often within a day, give or take one |
| KhotaScheduler.ValidateHardConstraints | app/services/khota_scheduler.py:87-102 | accepts exactly the plans meeting the hard constraints, otherwise names the fault of the first day that breaks one |
| KhotaScheduler.PlansPass | app/services/khota_scheduler.py:87-102 | every plan of the closed form passes |
| RateLimit.RateLimiter.Enforce | app/core/rate_limit.py:19-30 | a request passes iff fewer than limit requests of its key came before it in its window; no counter expires inside its window |
| RateLimit.WindowAdmitsFirst | app/core/rate_limit.py:19-30 | whatever was asked of a limiter, exactly the first limit requests of a window passed |
| RateLimit.TwoWindows | app/core/rate_limit.py:21 | an interval of window length meets at most two windows |
| RateLimit.IntervalAdmitsAtMostTwice | app/core/rate_limit.py:19-30 | and any interval of window length admitted at most twice the limit |
| RateLimit.IntervalBoundIsReached | app/core/rate_limit.py:19-30 | and that bound is reached for every limit and window |
| Retrieval.Collect | app/rag/retriever.py:58-89 | the longest run of leading blocks within the budget, one citation each; the flag covers the first block left out |
| Retrieval.Retrieve | app/rag/retriever.py:58-90 | that context, whose text overruns the budget iff some number of blocks just fits without separators |
| Retrieval.TakenIsUnique | app/rag/retriever.py:71-72 | chunks and budget determine how many blocks are taken |
| Retrieval.OverrunsIff | app/rag/retriever.py:71-90 | the joined text overruns iff for some m from two on the first m blocks fit, not with their separators, and no further block fits; then by no more than the separators |
| Retrieval.BudgetCanBeOverrun | app/rag/retriever.py:71-90 | two blocks that just fill the budget overrun it by their separator |
| Retrieval.PartIsPrinted | app/rag/retriever.py:90 | each block stands whole in the joined text |
| Retrieval.HeaderIs | app/rag/retriever.py:65-69 | a header names number and source, and page and section where there are any |
| Retrieval.CitationIs | app/rag/retriever.py:75-88 | a citation carries its chunk's identity and first 1200 characters |
| Retrieval.SeparatorIsPrinted | app/rag/retriever.py:90 | an empty line stands between blocks |
| Retrieval.ExcerptIsPrinted | app/rag/retriever.py:62-86 | the excerpt of citation n opens the text printed under [Sn] |
| Grounding.Tally | app/rag/grounding.py:78-84 | the loop covers the claim's terms found in some cited text and counts the references that hit |
| Grounding.Validate | app/rag/grounding.py:62-97 | the verdict by coverage, errors in the order in which they are looked for |
| Grounding.SupportedIff | app/rag/grounding.py:66-97 | a claim is accepted iff it cites something, only what is there, has terms, and one and 0.08 of them are found in what it cites |
| Grounding.HitsAreCounted | app/rag/grounding.py:78-84 | the supported references are the positions whose evidence shares a term |
| Grounding.HitsIffCoverage | app/rag/grounding.py:78-84 | no reference hits iff nothing is covered |
| Grounding.OrderDoesNotMatter | app/rag/grounding.py:80-97 | the order of the references does not change the verdict |
| Grounding.MoreEvidenceKeepsSupport | app/rag/grounding.py:85-97 | citing further evidence never turns an accepted claim away |

## Left out

- Retention cleanup (app/workers/tasks.py:45-56): it deletes finished jobs, undelivered results included, so the no-loss results speak of runs without it.
- Progress of a job whose worker crashed after its claim: the code does not restart it, so only safety is stated.
- The early look-up `existing_idempotency_result`: a read that changes nothing and decides as the modelled one does.
- What happens inside pipelines, ingestion, moderation and provider calls: their outcomes, prompt commits and exceptions are chosen by the environment.
- ProtocolWitnesses.FailedJobCanComplete: the second delivery fails before its first read; why it does is not modelled.
- Clocks of different hosts, and a crash between INCR and EXPIRE of a Redis counter: every breaker and limiter call is atomic on one clock; the cooldown and the window are positive.
- Generation.Generate: the numbering of attempts across several calls for one job, timeouts, costs and metrics are not modelled; neither are exceptions of has_budget and of the bookkeeping inside the two except branches, which leave the call at once.
- Router.SelectAccount: the slot is taken of an arbitrary digest; that SHA-256 spreads keys evenly is not stated.
- Page normalisation and the sentence boundary expression of the chunker: a page comes as its stripped units.
- The tokeniser and the guard's patterns: term sets and the suspicion flag are inputs; claim scores and their rounding are left out, and 0.08 is the fraction 2/25.
- CanonicalRequest.SameBytesIff: upper-casing is any code point mapping that makes no line break, of which nothing else is used; lone surrogates, which cannot be encoded, are no part of a string here.
- HMAC, signature headers, nonce storage and key rings of app/core/security.py.
- KhotaScheduler.BuildPlanDays: the request's language and the priority scores, of which the plan uses nothing, are left out.
- JobProcessor.Database.Handle: the error columns, completed_at and the exception it re-raises are not modelled.
- HTTP routes, schemas of other tasks, the anonymiser, document extraction, vector search and reranking, evaluation: plumbing or foreign calls, or only easy members.
