/** EdgeAuditStore (edge/audit.py): the run's own evidence on the edge's disk.
    A manifest write succeeds whole or raises and leaves the file as it was. */
module EdgeAudit {
  import opened CommonTypes
  import opened States
  import opened JointGates
  import TrialAudit

  datatype EvidenceStatus = NotRun | NotRequired | EvidencePassed | EvidenceFailed | Incomplete

  datatype StageEvidence = StageEvidence(
    exitCode: Option<int>,
    endReason: Option<string>,
    endApproved: bool,
    jointGate: EvidenceStatus,
    checker: EvidenceStatus,
    serverAudit: EvidenceStatus,
    edgeAudit: EvidenceStatus)
  {
    predicate Completed() {
      && exitCode == Some(0) && endReason.Some? && endApproved
      && jointGate == EvidencePassed && checker in {EvidencePassed, NotRequired}
      && serverAudit == EvidencePassed && edgeAudit == EvidencePassed
    }
  }

  datatype CheckerResult = CheckerResult(passed: bool, score: real, threshold: real, asset: string, reason: string)

  /** One line of a stage's rollout.jsonl. */
  datatype EdgeRow = EdgeRow(
    skill: Skill,
    session: SessionId,
    generation: nat,
    sequence: nat,
    publishedRows: nat,
    publishedTotal: nat,
    requestHash: Digest,
    actionHash: Digest)

  /** stage_evidence.json of a committed stage. */
  datatype StageRecord = StageRecord(
    evidence: StageEvidence,
    gate: GateResult,
    checker: CheckerResult,
    summary: TrialAudit.Manifest)

  /** One stage directory. */
  datatype StageLog = StageLog(
    skill: Skill,
    trial: TrialId,
    rows: seq<EdgeRow>,
    record: Option<StageRecord>,
    failure: Option<ErrorCode>)

  datatype RunStatus = RunActive | RunFailed | RunCompleted

  datatype RunManifest = RunManifest(
    status: RunStatus,
    state: PipelineState,
    planned: seq<Skill>,
    completedStages: nat,
    error: Option<ErrorCode>)

  /** One run directory: every write of run_manifest.json in order, and the stage directories by index. */
  datatype RunLog = RunLog(manifests: seq<RunManifest>, stages: seq<StageLog>) {
    /** ACTIVE manifests, then at most one that says how the run ended. */
    predicate EndsOnce() {
      forall i :: 0 <= i < |manifests| - 1 ==> manifests[i].status == RunActive
    }

    predicate Open() {
      forall i :: 0 <= i < |manifests| ==> manifests[i].status == RunActive
    }

    predicate Says(status: RunStatus) {
      |manifests| > 0 && manifests[|manifests| - 1].status == status
    }

    /** The first `n` stages are committed, and they are the planned ones. */
    predicate Committed(planned: seq<Skill>, n: nat) {
      && n <= |planned| && n <= |stages|
      && forall i :: 0 <= i < n ==> CommittedStage(stages[i], planned[i])
    }
  }

  predicate CommittedStage(stage: StageLog, skill: Skill) {
    stage.skill == skill && stage.record.Some? && stage.record.value.evidence.Completed()
  }

  datatype ActiveRun = ActiveRun(run: TrialId, planned: seq<Skill>, completed: nat, stageOpen: bool) {
    /** The manifest written for this run. */
    function Says(status: RunStatus, state: PipelineState, error: Option<ErrorCode>): RunManifest {
      RunManifest(status, state, planned, completed, error)
    }
  }

  /** What the object knows of its run against what is on disk. */
  predicate Tracks(a: ActiveRun, log: RunLog) {
    && log.Open() && log.Committed(a.planned, a.completed)
    && a.completed <= |log.stages| <= a.completed + 1 && |log.stages| <= |a.planned|
    && (a.stageOpen ==>
          && |log.stages| == a.completed + 1
          && log.stages[a.completed].record.None? && log.stages[a.completed].skill == a.planned[a.completed])
  }

  lemma FailedRunEnds(log: RunLog, last: RunManifest)
    requires log.Open() && log.EndsOnce() && last.status == RunFailed
    ensures var ended := log.(manifests := log.manifests + [last]); ended.EndsOnce() && !ended.Says(RunCompleted)
  {
  }

  /** A failure note on the open stage closes it and changes nothing else. */
  lemma FailedStageTracks(a: ActiveRun, log: RunLog, failed: RunLog, code: ErrorCode)
    requires Tracks(a, log) && a.stageOpen
    requires failed == log.(stages := log.stages[a.completed := log.stages[a.completed].(failure := Some(code))])
    ensures Tracks(a.(stageOpen := false), failed)
  {
  }

  class EdgeAuditStore {
    var active: Option<ActiveRun>
    /** The run directories on disk. */
    var runs: map<TrialId, RunLog>

    ghost predicate Valid()
      reads this
    {
      && (forall run :: run in runs ==> runs[run].EndsOnce())
      && (forall run :: run in runs && runs[run].Says(RunCompleted) ==> CompletedRun(runs[run]))
      && (active.Some? ==> active.value.run in runs && Tracks(active.value, runs[active.value.run]))
    }

    /** Every planned stage of a completed run is committed, in plan order. */
    static predicate CompletedRun(log: RunLog) {
      && |log.manifests| > 0
      && var last := log.manifests[|log.manifests| - 1];
         |log.stages| == |last.planned| == last.completedStages && log.Committed(last.planned, |last.planned|)
    }

    constructor (runs: map<TrialId, RunLog>)
      requires forall run :: run in runs ==> runs[run].EndsOnce()
      requires forall run :: run in runs && runs[run].Says(RunCompleted) ==> CompletedRun(runs[run])
      ensures Valid() && active.None? && this.runs == runs
    {
      active, this.runs := None, runs;
    }

    /** The log of the active run. */
    function Log(): RunLog
      requires active.Some? && active.value.run in runs
      reads this
    {
      runs[active.value.run]
    }

    method WriteManifest(status: RunStatus, state: PipelineState, error: Option<ErrorCode>) returns (written: bool)
      requires active.Some? && active.value.run in runs
      modifies this`runs
      ensures var a := active.value;
        runs == if written
        then old(runs)[a.run := old(Log()).(manifests := old(Log()).manifests + [a.Says(status, state, error)])]
        else old(runs)
    {
      written := *;
      if written {
        var a := active.value;
        runs := runs[a.run := runs[a.run].(manifests := runs[a.run].manifests + [a.Says(status, state, error)])];
      }
    }

    method UpdateStage(index: nat, stage: StageLog)
      requires active.Some? && active.value.run in runs && index < |Log().stages|
      modifies this`runs
      ensures runs == old(runs)[active.value.run := old(Log()).(stages := old(Log()).stages[index := stage])]
    {
      var a := active.value;
      runs := runs[a.run := runs[a.run].(stages := runs[a.run].stages[index := stage])];
    }

    /** Starts a run. `made` and `written` say whether the directory and the first manifest could be written. */
    method Begin(run: TrialId, planned: seq<Skill>) returns (r: Outcome<()>, ghost made: bool, ghost written: bool)
      requires Valid()
      modifies this
      ensures Valid()
      ensures r.Returned? <==> old(active).None? && run !in old(runs) && made && written
      // it raises and leaves the run active, which blocks every later run, exactly when the first manifest fails
      ensures r.Raised? && old(active).None? && active.Some? <==>
        old(active).None? && run !in old(runs) && made && !written
      ensures if old(active).None? && run !in old(runs) && made
        then
          && active == Some(ActiveRun(run, planned, 0, false))
          && runs == old(runs)[run := RunLog(if written then [active.value.Says(RunActive, Created, None)] else [], [])]
        else active == old(active) && runs == old(runs)
    {
      made, written := false, false;
      if active.Some? {
        return Raised(StateRejected), made, written;
      }
      var create: bool := *;
      made := create;
      if run in runs || !create {
        return Raised(AuditCommitFailed), made, written;
      }
      runs := runs[run := RunLog([], [])];
      active := Some(ActiveRun(run, planned, 0, false));
      var manifest := WriteManifest(RunActive, Created, None);
      written := manifest;
      assert manifest ==> Log().manifests == [RunManifest(RunActive, Created, planned, 0, None)];
      return if manifest then Returned(()) else Raised(ErrorCode.PipelineFailed), made, written;
    }

    method SetPipelineState(state: PipelineState) returns (r: Outcome<()>)
      requires Valid()
      modifies this`runs
      ensures Valid() && runs.Keys == old(runs).Keys
      ensures r.Returned? ==> active.Some?
      ensures active.Some? ==>
        && Log().stages == old(Log()).stages
        && Log().manifests == if r.Returned?
             then old(Log()).manifests + [active.value.Says(RunActive, state, None)]
             else old(Log()).manifests
      ensures forall run :: run in runs && !(active.Some? && active.value.run == run) ==> runs[run] == old(runs)[run]
    {
      if active.None? {
        return Raised(StateRejected);
      }
      var written := WriteManifest(RunActive, state, None);
      return if written then Returned(()) else Raised(ErrorCode.PipelineFailed);
    }

    /** A stage starts only as the next planned one, in a directory that did not exist. */
    method StartStage(index: nat, skill: Skill, trial: TrialId) returns (r: Outcome<()>)
      requires Valid()
      modifies this
      ensures Valid() && runs.Keys == old(runs).Keys && active.Some? == old(active).Some?
      ensures active.Some? ==>
        var a := old(active).value;
        var empty := StageLog(skill, trial, [], None, None);
        && Log().manifests == old(Log()).manifests
        && (if active.value.stageOpen && !a.stageOpen
            then index == a.completed == |old(Log()).stages| < |a.planned| && a.planned[index] == skill
              && active.value == a.(stageOpen := true) && Log().stages == old(Log()).stages + [empty]
            else active == old(active) && Log().stages == old(Log()).stages)
      ensures r.Returned? ==> active.Some? && active.value.stageOpen && !old(active).value.stageOpen
      ensures forall run :: run in runs && !(active.Some? && active.value.run == run) ==> runs[run] == old(runs)[run]
    {
      if active.None? {
        return Raised(StateRejected);
      }
      var a := active.value;
      if a.stageOpen || index != a.completed || index >= |a.planned| || a.planned[index] != skill {
        return Raised(StateRejected);
      }
      var made: bool := *;
      if index < |runs[a.run].stages| || !made {
        return Raised(ErrorCode.PipelineFailed);
      }
      active := Some(a.(stageOpen := true));
      runs := runs[a.run := runs[a.run].(stages := runs[a.run].stages + [StageLog(skill, trial, [], None, None)])];
      var written: bool := *;
      return if written then Returned(()) else Raised(ErrorCode.PipelineFailed);
    }

    /** Appends a line to the open stage; the call may raise before or after the line is on disk. */
    method RecordRollout(row: EdgeRow) returns (r: Outcome<()>)
      requires Valid()
      modifies this`runs
      ensures Valid() && runs.Keys == old(runs).Keys
      ensures r.Returned? ==> active.Some? && active.value.stageOpen && Log() != old(Log())
      ensures r.Raised? ==>
        r.code == if active.Some? && active.value.stageOpen then AuditCommitFailed else StateRejected
      ensures active.Some? ==>
        var stages := old(Log()).stages;
        var last := |stages| - 1;
        || Log() == old(Log())
        || (active.value.stageOpen
            && Log() == old(Log()).(stages := stages[last := stages[last].(rows := stages[last].rows + [row])]))
      ensures forall run :: run in runs && !(active.Some? && active.value.run == run) ==> runs[run] == old(runs)[run]
    {
      if active.None? || !active.value.stageOpen {
        return Raised(StateRejected);
      }
      var a := active.value;
      var stage := runs[a.run].stages[a.completed];
      var written: bool, flushed: bool := *, *;
      if written {
        UpdateStage(a.completed, stage.(rows := stage.rows + [row]));
        assert Log().stages[a.completed].rows != stage.rows;
      }
      return if written && flushed then Returned(()) else Raised(AuditCommitFailed);
    }

    /** Commits the open stage, and only on complete evidence. */
    method CompleteStage(record: StageRecord) returns (r: Outcome<()>)
      requires Valid()
      modifies this
      ensures Valid() && runs.Keys == old(runs).Keys && active.Some? == old(active).Some?
      ensures r.Returned? ==> active.Some? && active.value.completed == old(active).value.completed + 1
      ensures active.Some? ==>
        var a := old(active).value;
        var stages := old(Log()).stages;
        if active.value.completed == a.completed then active == old(active) && Log() == old(Log())
        else
          && record.evidence.Completed() && a.stageOpen && |stages| == a.completed + 1
          && active.value == a.(completed := a.completed + 1, stageOpen := false)
          && Log().stages == stages[a.completed := stages[a.completed].(record := Some(record))]
          && Log().manifests == old(Log()).manifests +
               if r.Returned? then [active.value.Says(RunActive, Handoff, None)] else []
      ensures forall run :: run in runs && !(active.Some? && active.value.run == run) ==> runs[run] == old(runs)[run]
    {
      if !record.evidence.Completed() {
        return Raised(AuditCommitFailed);
      }
      if active.None? || !active.value.stageOpen {
        return Raised(StateRejected);
      }
      var a := active.value;
      var written: bool := *;
      if !written {
        return Raised(ErrorCode.PipelineFailed);
      }
      UpdateStage(a.completed, runs[a.run].stages[a.completed].(record := Some(record)));
      active := Some(a.(completed := a.completed + 1, stageOpen := false));
      written := WriteManifest(RunActive, Handoff, None);
      return if written then Returned(()) else Raised(ErrorCode.PipelineFailed);
    }

    /** The failure note of the open stage, if there is one. */
    method FailStage(code: ErrorCode) returns (noted: bool)
      requires Valid() && active.Some?
      modifies this
      ensures Valid() && runs.Keys == old(runs).Keys
      ensures var a := old(active).value;
        && active == Some(if noted then a.(stageOpen := false) else a)
        && Log().manifests == old(Log()).manifests && |Log().stages| == |old(Log()).stages|
        && forall i :: 0 <= i < |Log().stages| ==>
             || Log().stages[i] == old(Log()).stages[i]
             || (i == a.completed && a.stageOpen && Log().stages[i] == old(Log()).stages[i].(failure := Some(code)))
      ensures forall run :: run in runs && active.value.run != run ==> runs[run] == old(runs)[run]
    {
      hide CommittedStage;
      var a := active.value;
      if !a.stageOpen {
        return true;
      }
      var written: bool := *;
      if !written {
        return false;
      }
      UpdateStage(a.completed, runs[a.run].stages[a.completed].(failure := Some(code)));
      active := Some(a.(stageOpen := false));
      FailedStageTracks(a, old(runs)[a.run], runs[a.run], code);
      return true;
    }

    /** Marks the open stage and the run as failed. The store lets go of the run only when both writes succeed. */
    method Fail(state: PipelineState, code: ErrorCode) returns (r: Outcome<()>)
      requires Valid()
      modifies this
      ensures Valid() && runs.Keys == old(runs).Keys
      ensures r.Returned? <==> old(active).Some? && active.None?
      ensures old(active).Some? ==>
        var run := old(active).value.run;
        && runs[run].manifests == old(Log()).manifests +
             (if r.Returned? then [old(active).value.Says(RunFailed, state, Some(code))] else [])
        && |runs[run].stages| == |old(Log()).stages|
        && (forall i :: 0 <= i < |runs[run].stages| ==>
            || runs[run].stages[i] == old(Log()).stages[i]
            || (i == old(active).value.completed && old(active).value.stageOpen
                && runs[run].stages[i] == old(Log()).stages[i].(failure := Some(code))))
      ensures forall run :: run in runs && !(old(active).Some? && old(active).value.run == run) ==>
        runs[run] == old(runs)[run]
    {
      hide CommittedStage, RunLog.EndsOnce, RunLog.Says, RunLog.Open, CompletedRun, RunLog.Committed, Tracks, Valid;
      if active.None? {
        return Raised(StateRejected);
      }
      ActiveIsKnown();
      var noted := FailStage(code);
      if !noted {
        return Raised(ErrorCode.PipelineFailed);
      }
      ActiveIsKnown();
      var written := FailRun(state, code);
      return if written then Returned(()) else Raised(ErrorCode.PipelineFailed);
    }

    lemma ActiveIsKnown()
      requires Valid() && active.Some?
      ensures active.value.run in runs
    {
    }

    /** The last manifest of a failed run; the store lets go of the run when it is written. */
    method FailRun(state: PipelineState, code: ErrorCode) returns (written: bool)
      requires Valid() && active.Some?
      modifies this
      ensures Valid() && active == if written then None else old(active)
      ensures var a := old(active).value;
        runs == if written
        then old(runs)[a.run := old(Log()).(manifests := old(Log()).manifests + [a.Says(RunFailed, state, Some(code))])]
        else old(runs)
    {
      FailedRunEnds(Log(), active.value.Says(RunFailed, state, Some(code)));
      written := WriteManifest(RunFailed, state, Some(code));
      hide RunLog.EndsOnce, RunLog.Says, RunLog.Open, CompletedRun, RunLog.Committed, Tracks;
      if written {
        active := None;
      }
    }

    /** COMPLETED is written only when every planned stage is committed. */
    method Complete() returns (r: Outcome<()>)
      requires Valid()
      modifies this
      ensures Valid() && runs.Keys == old(runs).Keys
      ensures r.Returned? <==> old(active).Some? && active.None?
      ensures r.Raised? ==> active == old(active) && runs == old(runs)
      ensures r.Returned? ==>
        var a := old(active).value;
        && !a.stageOpen && a.completed == |a.planned|
        && runs[a.run].stages == old(Log()).stages
        && runs[a.run].manifests == old(Log()).manifests + [a.Says(RunCompleted, PipelineState.Completed, None)]
        && CompletedRun(runs[a.run])
      ensures forall run :: run in runs && !(old(active).Some? && old(active).value.run == run) ==>
        runs[run] == old(runs)[run]
    {
      if active.None? {
        return Raised(StateRejected);
      }
      if active.value.stageOpen || active.value.completed != |active.value.planned| {
        return Raised(AuditCommitFailed);
      }
      var written := WriteManifest(RunCompleted, PipelineState.Completed, None);
      if !written {
        return Raised(ErrorCode.PipelineFailed);
      }
      active := None;
      return Returned(());
    }
  }
}
