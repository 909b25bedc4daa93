# Verification of the oven runtime

A Dafny model of the two halves of the oven runtime and proofs about them: the policy server, which owns one
policy, one trial and one session at a time and answers inference requests, and the edge, which runs the
pipeline of skills on the robot, publishes the commands and keeps its own evidence.

Check everything with `dafny verify dfyconfig.toml`.

## What is modelled

**The server as a concurrent system.** `server_system.dfy` is a state machine of any number of threads inside
`PolicyRuntime`, with one step per critical section of `_condition`, backend call and lock operation. Timeouts,
backend exceptions, failed writes and expired sessions are choices of a step. `server_runtime_spec.dfy` and
`server_audit.dfy` say on values what each critical section does; `server_runtime.dfy`,
`server_audit_store.dfy` and `server_composite_backend.dfy` are the objects with their fields, each method
proved to do exactly that, and `infer` as a whole to be a run of the steps. `server_invariant.dfy` is the inductive invariant, `server_preservation.dfy` shows
that every step keeps it, `server_theorems.dfy` draws the conclusions for every reachable state, and
`server_disk.dfy` those about the files of a trial. `server_locks.dfy` models the three locks on their own.

**The edge against that server.** `edge_server_link.dfy` runs each control command inside the server system to
its end while requests already sent, undeliverable responses and a shutdown go on around it; commands and replies
may be lost. It keeps the log of the server's events, from which the fate of an abort and the health of the server
are read. `server_rely.dfy` says what may be relied on meanwhile. `edge_orchestrator.dfy` is the pipeline as
an object whose calls may all raise, run against this server, the robot and the edge's disk. `edge_agreement.dfy`
relates the two logs, `edge_trace.dfy` the order of calls, `edge_plan.dfy` says what a committed stage must show. Arm,
server and checker (`edge_checker.dfy`) keep records of their own of the calls they get, and the trace of a run is proved
equal to them.

**The robot's side.** `edge_joint_gate.dfy` is the joint-rest gate, fed by one thread and polled by another;
`edge_windowed_gate.dfy` the sliding-window search; `edge_motion_paths.dfy` the arithmetic of commanded paths over
the reals; `edge_action_executor.dfy` the executor with a ghost trace of its commands; `edge_action_validator.dfy`
what may reach it; `edge_audit.dfy` the run's evidence.

**Tree hashing.** `common_hashing.dfy` is the byte stream that the walk feeds to SHA-256, and
`hashing_unambiguous.dfy` a parsing proof of when two trees give the same stream.

Four files are shared: `common_types.dfy`, `common_state.dfy` (the transition tables), `common_reals.dfy` and
`edge_inference_client.dfy` (the validation of a response).

## Findings

- `TrialAuditStore.end` writes two files. If the second write fails, `trial_summary.json` says COMMITTED although the
  trial is still open and may end as ABORTED (`ServerDisk.SummaryMayContradictManifest` is such a run). The two files of
  a closed trial disagree if and only if an end of it failed between its writes and none succeeded
  (`ServerDisk.SummaryContradictsManifestIff`).
- `stable_tree_hash` cannot tell `{"a": {}, "a/b": v}` from `{"a": {"b": v}}`. It identifies trees exactly as long as no
  mapping key holds a slash (`HashUnambiguity.SlashCollides`, `HashUnambiguity.IdentifiesIffSlashFree`).
- The drain loop of `prepare_skill` and its timeout are dead code: work in flight belongs to a trial, and a trial refuses
  the call (`ServerTheorems.NothingToDrain`).
- `prepare_skill` stores skill and generation before it checks the transition, so both change even when it raises
  (`ServerDisk.CommitMayRaise` is such a run). It raises there exactly when the server has left LOADING since
  (`ServerDisk.CommitRaisesIff`).
- A run that starts while a trial is live on the server, for example one left by an edge process that died, cannot clean
  it up: prepare-skill is refused, and `_safe_stop` sends an abort only once prepare-skill has succeeded. Undisturbed,
  a run ends clean if and only if no trial was live when it began (`Orchestration.PipelineOrchestrator.Run`,
  `ServerLinks.LiveTrialIsReachable`).
- `_safe_stop` catches exceptions of its calls but no KeyboardInterrupt: one that comes while the arm is stopped or the
  session is closed skips the abort. The abort is sent exactly when the run has begun a trial and the interrupt comes
  neither at the stop nor at the close of an open session; undisturbed, the trial is left exactly when there was one and
  the abort was not sent (`Orchestration.PipelineOrchestrator.SafeStop`).
- `EdgeAuditStore.begin` raises and leaves the run active exactly when the directory was made and the first manifest
  could not be written; every later run is then refused (`EdgeAudit.EdgeAuditStore.Begin`).
- The check of `reached_result` and the arming of the gate interleave: the sample noted as the departure may be older than
  the one that armed the gate (`JointGates.DepartureMayPrecedeArming` shows it with two samples). The arming sample is
  the older one, or the same, if and only if the gate was armed before the call that notes the departure
  (`JointGates.OnlineJointGate.ReachedResult`).
- `RequestKind` has a single value, so the refusal of warm-up requests in `runtime.py` (lines 373-374) is dead code and
  has no counterpart in the model.

## Model

| member | source | states |
|---|---|---|
| ServerTheorems.SessionMatchesRuntime | src/oven_runtime/server/runtime.py:161-185 | in every reachable state of any number of interleaved calls an open session is an ACTIVE lease with a token, the state is READY, its skill, generation and trial are the runtime's, the audit has that trial open, and the backend was last prepared for that skill |
| ServerTheorems.OldLeasesAreRevoked | src/oven_runtime/server/runtime.py:388-392 | a lease that is not the current session is not ACTIVE, has a blank token, and no request naming it is admitted |
| ServerTheorems.OneRequestInFlight | src/oven_runtime/server/runtime.py:192-262 | `_in_flight` is 0 or 1, it is 1 exactly while the owner of the execution lock is between its increment and decrement, and while READY the session is the one that admitted that request |
| ServerTheorems.NothingToDrain | src/oven_runtime/server/runtime.py:82-100 | DRAINING and SWITCHING are never visible to another thread, no thread ever waits in the drain loop (so its timeout cannot happen), and with work in flight prepare_skill is refused and changes nothing |
| ServerTheorems.SessionLogIsGapless | src/oven_runtime/server/runtime.py:215-242 | the rows of a session are numbered 0, 1, 2, … without gap or repeat; its answers are those rows in order, all but perhaps the last |
| ServerTheorems.UnansweredRowMeansFailure | src/oven_runtime/server/runtime.py:228-256 | a recorded row without an answer belongs to the request about to be answered, or the runtime is FAILED or STOPPING and the session gone |
| ServerTheorems.AnswersAreSafe | src/oven_runtime/server/runtime.py:238-256 | only the answering step of infer produces a response, and it does so in READY, under the active lease that admitted the request, after its row is in that session's log, with the hashes of that request and those actions |
| ServerTheorems.NoiseFollowsTheSeed | src/oven_runtime/server/composite_backend.py:163-187 | row n of a trial was sampled with the n-th split of the key made from the seed in that trial's manifest, across skills, trials, sessions and rejected requests |
| ServerTheorems.TrialMatchesAudit | src/oven_runtime/server/runtime.py:282-349 | the runtime's trial and root seed are those of the audit's active trial, under any pattern of write failures |
| ServerTheorems.ManifestLifecycle | src/oven_runtime/server/audit.py:166-218 | a trial's manifest is written ACTIVE once, is still just that exactly while the trial is the live one, and is then closed once as COMMITTED, ABORTED or AMBIGUOUS_INFERENCE with the true number of rows |
| ServerTheorems.RunGrowsDisk | src/oven_runtime/server/audit.py:100-218 | over any run the directories, every manifest's writes and every request log only grow at their end |
| ServerTheorems.ClosedTrialsAreFinal | src/oven_runtime/server/audit.py:166-218 | once a manifest is terminal neither it nor the trial's rows change in any continuation |
| ServerTheorems.DirectoriesAreNotReused | src/oven_runtime/server/audit.py:104-119 | a trial only starts in a directory that did not exist, even one left by a start that failed half-way |
| ServerDisk.SummaryMayContradictManifest | src/oven_runtime/server/audit.py:182-186 | a run from a fresh server: end_trial fails at its second write, an abort succeeds, and trial_summary.json says COMMITTED while server_manifest.json says ABORTED |
| ServerDisk.SummaryContradictsManifestIff | src/oven_runtime/server/audit.py:166-218 | in every run: a closed trial's summary differs from its manifest if and only if an end of that trial failed between its two writes and none succeeded |
| ServerDisk.FirstChunkIsRowZero | src/oven_runtime/server/audit.py:131-165 | in every run: first_action_chunk.json of a trial with rows describes row 0, whatever writes failed before |
| ServerDisk.CommitMayRaise | src/oven_runtime/server/runtime.py:120-125 | a run in which prepare_skill raises after it changed skill and generation: a shutdown comes between backend.prepare and the commit |
| ServerDisk.CommitRaisesIff | src/oven_runtime/server/runtime.py:120-125 | in every run: the commit always changes skill and generation, and raises exactly when the state is no longer LOADING, that is FAILED or STOPPING |
| ServerLocks.EveryCallIsOrdered | src/oven_runtime/server/runtime.py:77-349 | every call, on each way it can go, takes its locks only in the order execution, condition, audit and gives them all back |
| ServerLocks.LocksAreTakenInOrder | src/oven_runtime/server/runtime.py:102-118 | in every run of any number of calls a thread that takes a lock holds only lower ones |
| ServerLocks.SomebodyCanGoOn | src/oven_runtime/server/runtime.py:189-198 | no deadlock over the three locks: while a call is in progress some thread can go on without a timeout |
| ServerTheorems.BackendIsExclusive | src/oven_runtime/server/runtime.py:102-118 | backend.prepare, backend.infer and backend.reset_prng exclude one another: only the owner of the execution lock can take such a step |
| ServerTheorems.NobodyIsStuck | src/oven_runtime/server/runtime.py:189-198 | no deadlock over the execution lock: every call in progress can take a step that is not a timeout, or waits for that lock while its owner can; ServerLocks covers the other two locks |
| ServerTheorems.CallsWearOut | src/oven_runtime/server/runtime.py:187-262 | each own step strictly shortens a call and no step of another thread moves it |
| ServerTheorems.OnlyFaultsFail | src/oven_runtime/server/runtime.py:394-398 | in every reachable state only the listed faults lead to FAILED: lock timeouts of prepare and abort, backend or record failures, an end or abort whose manifest is not written, an undeliverable response of the live session; refused calls and ordinary aborts never do. A step that notes a failure comes, in that run, after a backend call of the same thread that raised or a record of it that was not written |
| ServerTheorems.BreakdownCause | src/oven_runtime/server/runtime.py:228-236 | in every run of a server that is up: a call on its way to the failure note got there by its own last step, a backend.infer, backend.prepare or backend.reset_prng that raised or a row that was not written; nothing else breaks a call |
| ServerTheorems.AnsweringNeverFails | src/oven_runtime/server/runtime.py:239-241 | the session check after an inference cannot be what fails a healthy runtime |
| ServerTheorems.FailedClosed | src/oven_runtime/server/runtime.py:351-382 | once FAILED or STOPPING the runtime stays so, and nothing more is admitted, opened, begun or answered |
| ServerPreservation.InvKept | src/oven_runtime/server/runtime.py:77-398 | each of the 23 kinds of step keeps the inductive invariant of the server |
| ServerPreservation.RunInv | src/oven_runtime/server/runtime.py:77-398 | so every run does |
| PolicyRuntimes.PolicyRuntime.InvalidateSession | src/oven_runtime/server/runtime.py:388-392 | the object's session is dropped and its lease revoked: the whole new state, and no session left |
| PolicyRuntimes.PolicyRuntime.FailRuntime | src/oven_runtime/server/runtime.py:394-398 | the whole new state after a failure; FAILED and STOPPING are kept |
| PolicyRuntimes.PolicyRuntime.EnterPrepare | src/oven_runtime/server/runtime.py:78-100 | the first critical section of prepare_skill, with its refusals in order, takes the whole object where the step semantics says |
| PolicyRuntimes.PolicyRuntime.CommitPrepare | src/oven_runtime/server/runtime.py:120-125 | skill and generation are stored before the transition is checked, so they change even when it raises |
| PolicyRuntimes.PolicyRuntime.BeginTrial | src/oven_runtime/server/runtime.py:135-151 | the checks, the PRNG reset, which may raise, and the audit start in their order, and the whole new state for each way they can go |
| PolicyRuntimes.PolicyRuntime.OpenSession | src/oven_runtime/server/runtime.py:161-185 | the refusals in order; otherwise a new lease object becomes the session |
| PolicyRuntimes.PolicyRuntime.CloseSession | src/oven_runtime/server/runtime.py:264-274 | the refusals in order; otherwise the lease is CLOSED and revoked |
| PolicyRuntimes.PolicyRuntime.AdmitRequest | src/oven_runtime/server/runtime.py:351-382 | the checks of a request in order; an expired session is dropped; on success the admitting lease is the session, with the request's id and token |
| PolicyRuntimes.PolicyRuntime.Answer | src/oven_runtime/server/runtime.py:238-242 | the identity check of the lease object, then its next sequence number; otherwise the runtime fails |
| PolicyRuntimes.PolicyRuntime.Infer | src/oven_runtime/server/runtime.py:192-262 | the critical sections of infer in the order of the code, run alone after the lock is taken: every way it can go is a run of the step semantics, with the same final state and the same answer, that ends without the lock |
| PolicyRuntimes.PolicyRuntime.EndTrial | src/oven_runtime/server/runtime.py:276-289 | the whole new state for each way the two writes can go |
| PolicyRuntimes.PolicyRuntime.Abort | src/oven_runtime/server/runtime.py:296-306 | the whole new state after abort's critical section |
| PolicyRuntimes.PolicyRuntime.MarkTransportAmbiguous | src/oven_runtime/server/runtime.py:313-329 | nothing for a session that is not the live one; otherwise the trial is closed as ambiguous and the runtime fails |
| PolicyRuntimes.PolicyRuntime.Close | src/oven_runtime/server/runtime.py:331-344 | the whole new state after shutdown, with or without the manifest written |
| TrialAuditStores.TrialAuditStore.Begin | src/oven_runtime/server/audit.py:100-121 | result and contents of the disk for each point at which begin can fail |
| TrialAuditStores.TrialAuditStore.RecordRequest | src/oven_runtime/server/audit.py:123-165 | the first chunk's file, then one row, count and first and last action hash; each may fail, and errors other than OSError keep their own code |
| TrialAuditStores.TrialAuditStore.End | src/oven_runtime/server/audit.py:166-188 | summary first, then manifest, then release of the trial; each write may fail |
| TrialAuditStores.TrialAuditStore.Terminate | src/oven_runtime/server/audit.py:190-218 | one terminal manifest and release of the trial, or nothing when there is none or the write fails |
| CompositeBackends.CompositeBackend.Prepare | src/oven_runtime/server/composite_backend.py:117-162 | a known skill is loaded with fresh noise, or everything stays as it was |
| CompositeBackends.CompositeBackend.Infer | src/oven_runtime/server/composite_backend.py:163-182 | refuses unprepared; otherwise splits the key once, whether or not the policy then raises |
| CompositeBackends.CompositeBackend.ResetPrng | src/oven_runtime/server/composite_backend.py:184-187 | the key of the seed, or an exception with the key old or new |
| CompositeBackends.KeyCountsSplits | src/oven_runtime/server/composite_backend.py:163-187 | after a reset the key depends only on the seed and on how many inferences got as far as the split |
| ServerRely.IssuedStep | src/oven_runtime/server/runtime.py:187-256 | no step makes up a request: a bound on the request numbers sent in a session keeps bounding its rows until a new request is sent |
| ServerRely.GrownStep | src/oven_runtime/server/runtime.py:77-398 | every step keeps leases' identities, responses, manifests, rows and those bounds |
| ServerRely.ForeignIsCalm | src/oven_runtime/server/runtime.py:187-349 | requests under way, delivery failures and a shutdown never change the policy, open a trial, a session or a directory |
| ServerRely.StaysUp | src/oven_runtime/server/runtime.py:394-398 | without a fault or a shutdown the server stays up |
| ServerRely.ServerAtRest | src/oven_runtime/server/runtime.py:62-75 | between control commands a server without a trial has no session and is READY, down, or never prepared |
| ServerRely.TrialsEndOnPurpose | src/oven_runtime/server/runtime.py:276-349 | a live trial ends only by end_trial, abort, the report of an undelivered response, or a shutdown |
| ServerRely.HealthyIsUp | src/oven_runtime/server/runtime.py:394-398 | a server whose log shows no fault and no shutdown is neither FAILED nor STOPPING |
| ServerLinks.ServerLink.PrepareSkill | src/oven_runtime/server/runtime.py:77-125 | prepare-skill run to its end inside the concurrent server, with everything else going on around it: no trial or session appears, success means the skill is the active one, and while a trial is live or the server is down it is refused and prepares nothing |
| ServerLinks.ServerLink.BeginTrial | src/oven_runtime/server/runtime.py:127-159 | at most this trial begins; success means its manifest carries the seed and the live policy, and no session exists in it |
| ServerLinks.ServerLink.OpenSession | src/oven_runtime/server/runtime.py:161-185 | a session opened here is new, belongs to the live trial and policy and has no request yet, even when the reply is lost |
| ServerLinks.ServerLink.CloseSession | src/oven_runtime/server/runtime.py:264-274 | success leaves no session; in any case nothing is opened and nothing on record is lost, and the trial stays unless a delivery failure or a shutdown takes it |
| ServerLinks.ServerLink.EndTrial | src/oven_runtime/server/runtime.py:276-289 | success means the live trial's manifest is on disk as COMMITTED and no trial is left |
| ServerLinks.ServerLink.Abort | src/oven_runtime/server/runtime.py:291-308 | its fate is read off the server's log: one that lands leaves no trial, one that reaches the server leaves no trial or a server that is down, and it reaches the server exactly when it is sent through |
| ServerLinks.LiveTrialIsReachable | src/oven_runtime/server/runtime.py:83-84 | a reachable server with a live trial and no command in progress, on which prepare-skill is refused and changes nothing |
| ServerLinks.ServerLink.Infer | src/oven_runtime/edge/inference_client.py:65-121 | one request is sent; what comes back is some response of the server that passes validation for it, or an error, possibly with the request still under way |
| ResponseValidation.OneRequestPerResponse | src/oven_runtime/edge/inference_client.py:84-117 | one response cannot pass validation for two different requests |
| ResponseValidation.PassingResponseIsTheRow | src/oven_runtime/edge/inference_client.py:84-117 | any response the server ever gave that passes for request n of a session is the answer recorded as row n of that session's server log, with the request's hash and the hash of the actions received |
| LogAgreement.AtMostOneExtraRow | src/oven_runtime/edge/orchestrator.py:196-230 | agreement means the server has as many rows of the session as the edge, or one more, and exactly as many once the stage is committed |
| LogAgreement.AgreementLasts | src/oven_runtime/edge/orchestrator.py:196-230 | agreement outlives whatever the server does next; only the session's next request may add a row |
| LogAgreement.RecordingKeepsAgreement | src/oven_runtime/edge/orchestrator.py:209-221 | recording the answer to the next request keeps the two logs in step |
| LogAgreement.SummaryCountsSession | src/oven_runtime/edge/orchestrator.py:148-155 | a committed trial with a single session counts exactly that session's rows |
| Orchestration.PipelineOrchestrator.Run | src/oven_runtime/edge/orchestrator.py:104-127 | for every run on a server in any state: refused or unbegun runs touch neither robot nor server; otherwise logs agree, committed stages are justified and calls are in order at the end, whatever raised; a run that returns has committed every stage and left the server clean; where no trial was live, a run that is not interrupted in its cleanup and whose abort, if sent, reaches the server leaves it clean or down, and down only by a fault or shutdown in its log; where one was live, the run raises, begins nothing and leaves that trial; the calls after a failure are exactly those of _safe_stop, cut where the interrupt hits; undisturbed, with an interrupt neither at the stop nor at a close-session and with an abort that works if one is sent, it ends clean if and only if none was live |
| Orchestration.PipelineOrchestrator.RunStages | src/oven_runtime/edge/orchestrator.py:110-117 | returns only with every planned stage committed in order and COMPLETED written; at any exception the run is still in a state that _safe_stop handles |
| Orchestration.PipelineOrchestrator.RunStage | src/oven_runtime/edge/orchestrator.py:129-194 | commits exactly the next stage, or raises with all invariants intact |
| Orchestration.PipelineOrchestrator.OpenStage | src/oven_runtime/edge/orchestrator.py:137-142 | after open-session the server's trial is this stage's and its only session is the one just opened, with nothing asked in it |
| Orchestration.PipelineOrchestrator.Rollout | src/oven_runtime/edge/orchestrator.py:196-230 | published_steps is always the executor's own count; a rollout that returns was stopped by an earned gate pass with min_publish_step ≤ published ≤ action_steps; with action_steps = max_chunks·chunk_rows the over-budget fault is not raised, and the exhaustion fault is raised only with max_chunks rows recorded and exactly that many chunks of rows published, and nothing else is raised with that many rows, unless recording one failed |
| Orchestration.PipelineOrchestrator.PublishActions | src/oven_runtime/edge/orchestrator.py:202-207 | the over-budget fault is raised exactly for valid actions that do not fit, and what does not fit is not published |
| Orchestration.PipelineOrchestrator.OneChunk | src/oven_runtime/edge/orchestrator.py:198-225 | one round: the answer is the server's row of that number, the edge's row matches it, totals add up; a chunk over the budget moves nothing |
| Orchestration.PipelineOrchestrator.Ask | src/oven_runtime/edge/orchestrator.py:199-201 | the response to request n is row n of the server's log of this session |
| Orchestration.PipelineOrchestrator.EndTrial | src/oven_runtime/edge/orchestrator.py:147-155 | close-session and end-trial leave no trial and a COMMITTED manifest with one row per row of the edge |
| Checkers.Checker.Evaluate | src/oven_runtime/edge/orchestrator.py:163-165 | each verdict given stays on the checker's record, in order |
| Orchestration.PipelineOrchestrator.FinishStage | src/oven_runtime/edge/orchestrator.py:157-194 | a stage is committed only after the gate's verdict and, if the plan asks for it, a checker call of this run that passed: its verdict, from the checker's own record, is the one put in evidence |
| Orchestration.PipelineOrchestrator.SafeStop | src/oven_runtime/edge/orchestrator.py:255-286 | from every point of a run exactly these calls: the arm, then close-session if one is open, then abort if a trial was begun, then the record; exceptions are caught, and a KeyboardInterrupt ends it at the call it hits (at the stop and the record always, at the other two if they are made). So an abort is sent exactly when the run has begun a trial and the interrupt came neither at the stop nor at a close-session; the arm is sent one held pose and nothing of a policy; undisturbed, the server ends clean exactly when it had no trial or the abort was sent and worked |
| Orchestration.PipelineOrchestrator.Transition | src/oven_runtime/edge/orchestrator.py:288-291 | the state changes only along the table, and before the write that may raise |
| Orchestration.CommittedStageIsReal | src/oven_runtime/edge/orchestrator.py:156-194 | a stage the edge calls committed: the arm was seen at rest at one template in samples the gate was shown in that stage, the verdict on record is one that the checker gave for this skill in this run and it passed, where a checker is required, the published rows fit the plan, the server committed the trial, and both logs hold the same rows |
| Orchestration.PosesComeFromStages | src/oven_runtime/edge/orchestrator.py:143-148 | every pose a policy asked for went out in a publish call, and in the calls the arm really got in a run a publish comes straight after its begin_stage or another publish |
| Orchestration.FailureHoldsTheArm | src/oven_runtime/edge/orchestrator.py:255-263 | once a failed run has been stopped, the last call the arm got is that stop, and since then one pose over and over and nothing of a policy went out |
| Orchestration.EdgeLogIsPrefix | src/oven_runtime/edge/orchestrator.py:196-230 | in every run, whatever failed, the edge's rows of a stage are the first rows of the server's log of its session — same sequence, skill, generation, request hash and action hash — and the server has at most one more |
| Traces.ChunksLieInsideStages | src/oven_runtime/edge/orchestrator.py:144-148 | every policy chunk is published after a begin_stage with only publishing and inference in between; the trace is equal to the logs that arm and server keep of their calls |
| Traces.FailureStopsTheArmFirst | src/oven_runtime/edge/orchestrator.py:255-275 | after a failure the first call stops the arm and only close-session and abort follow; the trace is equal to the logs that arm and server keep of their calls |
| Traces.NoAbortYet | src/oven_runtime/edge/orchestrator.py:270-275 | an abort is sent only after a failure and after the arm was stopped |
| Plans.AccountedMore | src/oven_runtime/edge/orchestrator.py:208-221 | rows stay numbered from 0 with a running total of published action rows |
| EdgeAudit.EdgeAuditStore.Begin | src/oven_runtime/edge/audit.py:54-67 | a run starts only in a new directory with none active; it raises and leaves the run active, blocking every later one, exactly when the directory was made and the first manifest was not |
| EdgeAudit.EdgeAuditStore.StartStage | src/oven_runtime/edge/audit.py:74-96 | only the next planned stage starts, in a directory that did not exist; no other run changes |
| EdgeAudit.EdgeAuditStore.RecordRollout | src/oven_runtime/edge/audit.py:98-107 | one line appended to the open stage, or nothing |
| EdgeAudit.EdgeAuditStore.CompleteStage | src/oven_runtime/edge/audit.py:109-140 | only the open stage and only on complete evidence; the stage counts as committed even if the run manifest then cannot be written |
| EdgeAudit.EdgeAuditStore.Fail | src/oven_runtime/edge/audit.py:142-158 | a failure note for the open stage, then FAILED as the run's last manifest, or the run stays active |
| EdgeAudit.EdgeAuditStore.Complete | src/oven_runtime/edge/audit.py:160-167 | COMPLETED only when every planned stage is committed, and nothing is written after it |
| States.EveryStateMayStop | src/oven_runtime/common/state.py:50-65 | SAFE_STOP is reachable in one step from every state of a run that has not ended, and leads only to FAILED |
| States.NoStepIsSkipped | src/oven_runtime/common/state.py:50-65 | every legal path to HANDOFF went through the seven states of a stage, in order, right before |
| States.CompletionFollowsHandoff | src/oven_runtime/common/state.py:50-65 | and COMPLETED comes only right after such a stage |
| States.EveryStateMayFail | src/oven_runtime/common/state.py:40-48 | every server state but FAILED and STOPPING may move to FAILED, so failing never raises |
| JointGates.SortReallySorts | src/oven_runtime/edge/joint_gate.py:173-173 | the order statistics come from an ascending permutation of the window |
| JointGates.MedianBetween | src/oven_runtime/edge/joint_gate.py:172-174 | the median of an odd or even window lies between its least and greatest value |
| JointGates.PassBoundsEverySample | src/oven_runtime/edge/joint_gate.py:172-182 | a passing window has one template at which every sample is within tolerance + max_spread at every checked joint |
| JointGates.FirstMatch | src/oven_runtime/edge/joint_gate.py:175-176 | the first template within tolerance at every checked index, if there is one |
| JointGates.PollAgreesWithEvaluate | src/oven_runtime/edge/joint_gate.py:110-150 | without an update in between, polling passes exactly when publish_step ≥ min_publish_step and evaluate passes, with the same result |
| JointGates.PolledAlone | src/oven_runtime/edge/joint_gate.py:110-133 | the interleaved poll without samples in its gaps is the sequential one |
| JointGates.DepartureMayPrecedeArming | src/oven_runtime/edge/joint_gate.py:110-129 | two samples show the race: one that does not arm is polled off every template, the next one, at rest, arms the gate before the second section, and the departure is noted |
| JointGates.FedIsBacked | src/oven_runtime/edge/joint_gate.py:94-108 | every update keeps the deque the end of the accepted samples and every flag backed by a sample that earned it |
| JointGates.OnlineJointGate.Begin | src/oven_runtime/edge/joint_gate.py:85-92 | raises and changes nothing for an unknown skill; otherwise starts with nothing seen |
| JointGates.OnlineJointGate.Update | src/oven_runtime/edge/joint_gate.py:94-108 | a sample of another arm, shape or with non-finite values changes nothing; otherwise it enters the bounded deque and may arm |
| JointGates.OnlineJointGate.ReachedResult | src/oven_runtime/edge/joint_gate.py:110-133 | whatever samples arrive in the two gaps between its three critical sections, state and result are exactly those of the interleaved poll. A pass was earned: an arming sample and a sample off every template, neither later than the sample kept at the departure, and a full passing window of which no sample is older than that one. If the call notes the departure, the arming sample is no later than the departing one if and only if the gate was armed before the call |
| JointGates.OnlineJointGate.Evaluate | src/oven_runtime/edge/joint_gate.py:139-150 | a pass is earned in the same sense, whatever updates come in between; without interference it is the sequential verdict |
| WindowedGate.Evaluate | src/oven_runtime/edge/joint_gate.py:194-232 | passes with samples = i exactly for the least i ≤ max_samples at which the last required_samples readings are usable, within tolerance and within max_spread; otherwise fails with samples = max_samples |
| TreeHashing.StableTreeStream | src/oven_runtime/common/hashing.py:19-51 | the recursive walk over one shared digest feeds exactly the framed pre-order stream of the tree, or raises on a frame that does not fit its length fields |
| TreeHashing.Framed | src/oven_runtime/common/hashing.py:11-16 | a frame is its two lengths, big-endian, around label and payload; raises when a length does not fit |
| TreeHashing.SortCommutes | src/oven_runtime/common/hashing.py:27-28 | sorting the items of a mapping does not depend on their order |
| HashUnambiguity.FrameDetermines | src/oven_runtime/common/hashing.py:11-16 | a framed byte string can be cut in one way only |
| HashUnambiguity.EncodeDetermines | src/oven_runtime/common/hashing.py:11-16 | so can a whole stream: equal bytes, equal frames |
| HashUnambiguity.FramesDetermine | src/oven_runtime/common/hashing.py:24-48 | equal frames of slash-free trees mean equal trees up to mapping order and leaf form |
| HashUnambiguity.SameIffCanon | src/oven_runtime/common/hashing.py:27-42 | two trees are the same up to mapping order, list or tuple, and the shapes () and (1,) exactly when their canonical forms are equal |
| HashUnambiguity.StreamIdentifiesTree | src/oven_runtime/common/hashing.py:19-51 | for trees whose mapping keys are slash-free, equal streams if and only if the same tree |
| HashUnambiguity.SlashCollides | src/oven_runtime/common/hashing.py:28-28 | for every legal value v: {a: {}, a/b: v} and {a: {b: v}} are different trees with equal streams |
| HashUnambiguity.IdentifiesIffSlashFree | src/oven_runtime/common/hashing.py:19-51 | for any set of keys short enough to hash and closed under cutting at slashes: the stream tells the trees over them apart if and only if no key holds a slash |
| MotionPaths.TotalSteps | src/oven_runtime/edge/ros2_action.py:61-61 | two, or the least number of steps that is at least duration times rate |
| MotionPaths.ResetIsSmooth | src/oven_runtime/edge/ros2_action.py:63-66 | every joint moves monotonically from start to target in steps of at most 1.5·abs(target − start) / total_steps |
| MotionPaths.ResetEndsAtTarget | src/oven_runtime/edge/ros2_action.py:63-66 | the last command of a reset is the target exactly |
| MotionPaths.ResetSpeed | src/oven_runtime/edge/ros2_action.py:61-67 | in time: at most 1.5·abs(target − start) / (duration·rate) per command |
| MotionPaths.TransitionIsStraight | src/oven_runtime/edge/ros2_action.py:93-96 | transition commands lie between the last command and the first row, in equal steps of abs(first − last) / steps |
| MotionPaths.TransitionArrives | src/oven_runtime/edge/ros2_action.py:93-98 | and end exactly on the first row |
| MotionPaths.ChunkStaysBounded | src/oven_runtime/edge/ros2_action.py:91-119 | a bounded chunk entered from inside the box never commands a pose outside it |
| ActionExecution.RosActionExecutor.Reset | src/oven_runtime/edge/ros2_action.py:56-74 | what went out is a prefix of the smooth path, all of it if the call returns, with the other arm held |
| ActionExecution.RosActionExecutor.BeginStage | src/oven_runtime/edge/ros2_action.py:76-83 | on success the stage starts with zero rows and a gate that has seen no departure; a failed start changes neither skill nor counts |
| ActionExecution.RosActionExecutor.Publish | src/oven_runtime/edge/ros2_action.py:85-120 | what went out is a prefix of transition and rows; every published row is within max_row_delta of the one before, and a violating row never goes out; counts and last command match; it stops only on an earned gate pass at enough rows; everything stays in the validator's box if the stage started there |
| ActionExecution.RosActionExecutor.Follow | src/oven_runtime/edge/ros2_action.py:103-120 | the rows after the first, one by one, until one strays, the gate passes, or they are all out |
| ActionExecution.RosActionExecutor.Stop | src/oven_runtime/edge/ros2_action.py:122-141 | holds both arms, the configured number of times if the call returns, and ends the stage |
| ActionValidation.Validate | src/oven_runtime/edge/validation.py:40-66 | accepted exactly when the limits are positive, values are finite numbers, the rows are chunk_rows of one or two times the dimension and the used columns are within the limit; then exactly those columns are returned |

## Left out

Assumptions and idealisations:

- Writes: a manifest write, an append and a directory creation each happen whole or not at all (an edge append may also raise after it happened); a replace that succeeds and then fails to sync is not modelled, nor are torn lines or a crash of the process.
- SHA-256 is taken to be free of collisions: a digest is the term that was hashed. The unambiguity of the hashed bytes is proved separately in HashUnambiguity.
- Session ids and tokens: uuid4 and token_urlsafe give values never used before; the token is non-empty.
- Numbers are reals: rounding, the cast of validated actions to float32, and overflow are not modelled. Whether values are finite numbers is an input of ActionValidation.Validate and of a joint reading.
- Clocks: every timeout, deadline, session expiry and freshness check may go either way at any time. Settling times and publishing periods are not modelled.
- Any exception that is not a RuntimeFault is one code, PipelineFailed or PolicyFailed; messages and details are dropped.
- Orchestration.PipelineOrchestrator.SafeStop: an interrupt comes in one of its four calls, not between them, and at most once; elsewhere an interrupt comes as an exception of a call.
- Orchestration.PipelineOrchestrator.Run: is the server's only client while it runs; with several orchestrators one could close the other's session.
- ServerLinks.ServerLink.PrepareSkill: a control command either never reaches the server or finishes before the next one starts, as the control server executes them one at a time; a command delayed in the tunnel past a later one is not modelled.
- ServerLinks.ServerLink.Infer: the transport may lose, delay or mix up responses but does not forge one.
- ActionExecution.RosActionExecutor.Publish: rows and joint poses have seven columns (an action dimension other than seven would raise or broadcast in NumPy); a command pair on the two topics is one step.
- Orchestration.PipelineOrchestrator.Rollout: the two faults of the budget have codes of their own in the model; the code raises them as ACTION_INVALID and JOINT_GATE_FAILED with different messages.
- JointGates.OnlineJointGate.ReachedResult: one thread begins and polls, another feeds; begin is not called while a poll runs.
- ServerSystem: a critical section of the condition is one step, with the audit calls inside it; waiting for the condition's and the audit's lock is modelled in ServerLocks.
- ServerTheorems.BackendIsExclusive: backend.close takes no lock in the code and is not excluded from overlapping the other calls.
- ServerTheorems.SessionMatchesRuntime: nothing is claimed about a trial that ended: end_trial does not look at the runtime state, so a COMMITTED trial alone does not imply READY or that every row was answered. That holds under the orchestrator's order of calls (Orchestration.CommittedStageIsReal).
- HashUnambiguity.StreamIdentifiesTree: mapping keys are given in their UTF-8 form and are distinct as strings; dtype names hold no quotes; a scalar is its type name and its JSON text.
- TreeHashing.StableTreeStream: a frame whose lengths do not fit raises; NaN and infinity, which json.dumps refuses, are not trees of the model.
- Plans.AccountedMore: the patterns that run and trial ids must match are checks of one field and are not modelled.

Not modelled because it is plumbing or would only add easy members:

- ROS nodes, cameras, image conversion, spin threads, the process lock of the executor and the checks of preflight: an outcome that may raise.
- The SSH tunnel, the Unix control socket, the WebSocket server, the command-line programs and the composition of the application.
- The wire format (common/wire.py) and the field-by-field parsing of requests, control commands and profiles: requests and plans arrive validated.
- The visual checker's model, the loading and merging of policies, asset hashes and norm statistics: a call that succeeds or raises.
- Diagnostics, the contents of first_action_chunk.npy, and the status report.
- The closing of the executor and of the observation source, and the approval prompt.
