/** The two transition tables of common/state.py and what they force on whole paths. */
module States {
  datatype RuntimeState = Starting | Loading | Ready | Draining | Switching | Failed | Stopping

  datatype SessionState = Active | Closed | Expired | Aborted

  datatype PipelineState =
    | Created
    | Preflight
    | Resetting
    | PreparingPolicy
    | ReadyToRollout
    | Rollout
    | JointGate
    | Checking
    | Handoff
    | Completed
    | SafeStop
    | PipelineFailed

  function RuntimeTargets(s: RuntimeState): set<RuntimeState> {
    match s
    case Starting => {Loading, Stopping, Failed}
    case Loading => {Ready, Failed, Stopping}
    case Ready => {Draining, Failed, Stopping}
    case Draining => {Switching, Failed, Stopping}
    case Switching => {Loading, Failed, Stopping}
    case Failed => {Stopping}
    case Stopping => {}
  }

  function PipelineTargets(s: PipelineState): set<PipelineState> {
    match s
    case Created => {Preflight, SafeStop}
    case Preflight => {Resetting, SafeStop}
    case Resetting => {PreparingPolicy, SafeStop}
    case PreparingPolicy => {ReadyToRollout, SafeStop}
    case ReadyToRollout => {Rollout, SafeStop}
    case Rollout => {JointGate, SafeStop}
    case JointGate => {Checking, SafeStop}
    case Checking => {Handoff, SafeStop}
    case Handoff => {Resetting, Completed, SafeStop}
    case SafeStop => {PipelineFailed}
    case Completed => {}
    case PipelineFailed => {}
  }

  // ----- what the tables force -----

  /** Every state of a run that has not ended may go to SAFE_STOP, and from there only to FAILED. */
  lemma EveryStateMayStop(s: PipelineState)
    ensures SafeStop in PipelineTargets(s) <==> s !in {SafeStop, Completed, PipelineFailed}
    ensures PipelineTargets(SafeStop) == {PipelineFailed}
    ensures PipelineTargets(PipelineFailed) == PipelineTargets(Completed) == {}
  {
  }

  /** Every server state but FAILED and STOPPING may fail, so failing never raises. */
  lemma EveryStateMayFail(s: RuntimeState)
    ensures Failed in RuntimeTargets(s) <==> s !in {Failed, Stopping}
    ensures Stopping in RuntimeTargets(s) <==> s != Stopping
  {
  }

  predicate LegalPath(path: seq<PipelineState>) {
    forall i :: 0 < i < |path| ==> path[i] in PipelineTargets(path[i - 1])
  }

  /** The states of one stage, in order. */
  const STAGE: seq<PipelineState> := [Resetting, PreparingPolicy, ReadyToRollout, Rollout, JointGate, Checking, Handoff]

  /** A run that has come to HANDOFF, and so one that completes, went through every step of the stage right before. */
  lemma NoStepIsSkipped(path: seq<PipelineState>, i: nat)
    requires LegalPath(path) && i < |path| && path[0] == Created && path[i] == Handoff
    ensures i >= 7 && path[i - 6..i + 1] == STAGE
  {
    StepsBack(path, i, 6);
    forall j: nat | j < 7 ensures path[i - 6..i + 1][j] == STAGE[j] {
      StepsBack(path, i, 6 - j);
    }
  }

  lemma {:induction false} StepsBack(path: seq<PipelineState>, i: nat, k: nat)
    requires LegalPath(path) && i < |path| && path[0] == Created && path[i] == Handoff && k <= 6
    ensures i - k > 0 && path[i - k] == STAGE[6 - k]
  {
    if k > 0 {
      StepsBack(path, i, k - 1);
      assert path[i - k + 1] in PipelineTargets(path[i - k]);
    }
  }

  lemma CompletionFollowsHandoff(path: seq<PipelineState>, i: nat)
    requires LegalPath(path) && i < |path| && path[0] == Created && path[i] == Completed
    ensures i >= 8 && path[i - 7..i] == STAGE
  {
    assert i > 0 && path[i] in PipelineTargets(path[i - 1]);
    NoStepIsSkipped(path, i - 1);
  }
}
