/** PipelineOrchestrator (edge/orchestrator.py), run against the robot, the edge's disk and the server system.
    Any call may raise; sampling, checking, approving and sleeping are outcomes chosen by the world. */
module Orchestration {
  import opened CommonTypes
  import opened States
  import opened MotionPaths
  import opened JointGates
  import opened ActionExecution
  import opened ActionValidation
  import opened EdgeAudit
  import opened Checkers
  import opened LogAgreement
  import opened Plans
  import Traces
  import TrialAudit
  import RuntimeSpec
  import ServerSystem
  import ServerInvariant
  import opened ServerRely
  import opened ServerLinks
  import ResponseValidation

  /** Where an interrupt can cut _safe_stop short: it catches exceptions of its calls, but no KeyboardInterrupt. */
  datatype Cut = AtStop | AtClose | AtAbort | AtRecord

  /** What decides a cleanup from outside: the call of _safe_stop that the operator interrupts, if any,
      and whether its abort reaches the server. */
  datatype World = World(interrupts: Option<Cut>, abortReaches: bool)

  /** Which interrupt ends _safe_stop, when a session is `open` and a trial `begun`: only a call that is made can be
      interrupted. The stop of the arm and the record always are; the other two only if there is something to end. */
  function CutOf(interrupts: Option<Cut>, open: bool, begun: bool): Option<Cut> {
    match interrupts
    case Some(AtClose) => if open then interrupts else None
    case Some(AtAbort) => if begun then interrupts else None
    case _ => interrupts
  }

  /** The interrupt comes before the abort would be sent. */
  predicate CutsEarly(interrupts: Option<Cut>, open: bool) {
    interrupts == Some(AtStop) || (interrupts == Some(AtClose) && open)
  }

  lemma CutFacts(interrupts: Option<Cut>, open: bool, begun: bool)
    ensures interrupts.None? ==> !CutsEarly(interrupts, open)
    ensures !CutsEarly(interrupts, open) && !begun ==> CutOf(interrupts, open, begun) in {None, Some(AtRecord)}
  {
  }

  lemma RecordCut(interrupts: Option<Cut>, open: bool, begun: bool)
    ensures CutOf(interrupts, open, begun) == Some(AtRecord) <==> interrupts == Some(AtRecord)
  {
  }

  lemma RemoteCuts(interrupts: Option<Cut>, open: bool, begun: bool)
    requires interrupts != Some(AtStop)
    ensures (if interrupts == Some(AtRecord) then None else CutOf(interrupts, open, begun)) ==
      if interrupts == Some(AtClose) && open then Some(AtClose)
      else if interrupts == Some(AtAbort) && begun then Some(AtAbort)
      else None
  {
    match interrupts {
      case None =>
      case Some(cut) => match cut { case AtStop => case AtClose => case AtAbort => case AtRecord => }
    }
  }

  /** The calls of _safe_stop that go to the server, in order. */
  function Farewell(interrupts: Option<Cut>, open: bool, begun: bool): seq<Traces.Act> {
    (if open then [Traces.Remote(Traces.CloseSession)] else [])
    + if begun && !CutsEarly(interrupts, open) then [Traces.Remote(Traces.AbortTrial)] else []
  }

  /** All calls of _safe_stop, in order. */
  function Halt(interrupts: Option<Cut>, open: bool, begun: bool): seq<Traces.Act> {
    [Traces.Failure, Traces.StopArm] + if interrupts == Some(AtStop) then [] else Farewell(interrupts, open, begun)
  }

  lemma HaltIsSomething(before: seq<Traces.Act>, interrupts: Option<Cut>, open: bool, begun: bool)
    ensures before + Halt(interrupts, open, begun) != []
  {
  }

  lemma StopFirst(before: seq<Traces.Act>, interrupts: Option<Cut>, open: bool, begun: bool)
    ensures var stopped := before + [Traces.Failure, Traces.StopArm];
      if interrupts == Some(AtStop)
      then
        && stopped == before + Halt(interrupts, open, begun) && CutsEarly(interrupts, open)
        && CutOf(interrupts, open, begun) == Some(AtStop)
      else stopped + Farewell(interrupts, open, begun) == before + Halt(interrupts, open, begun)
  {
    var stopped := before + [Traces.Failure, Traces.StopArm];
    if interrupts == Some(AtStop) {
      assert Halt(interrupts, open, begun) == [Traces.Failure, Traces.StopArm];
    } else {
      var rest := Farewell(interrupts, open, begun);
      assert stopped + rest == before + ([Traces.Failure, Traces.StopArm] + rest);
    }
  }

  /** A run that failed: its calls until then, and whether a session was open and a trial begun. */
  datatype Breakdown = Breakdown(before: seq<Traces.Act>, open: bool, begun: bool)

  /** Nothing was sent to the arm but one pose, some times. */
  ghost predicate OnlyHeld(before: seq<Command>, after: seq<Command>) {
    exists hold, n: nat :: after == before + Repeated(hold, n)
  }

  datatype Earlier = Earlier(arm: seq<Traces.Act>, server: seq<Traces.Act>, verdicts: nat)

  class PipelineOrchestrator {
    const plan: PipelinePlan
    const validator: ActionValidator
    const executor: RosActionExecutor
    const audit: EdgeAuditStore
    const server: ServerLink
    const checker: Checker
    var state: PipelineState
    var activeSession: Option<SessionId>
    var trialStarted: bool

    /** The calls made so far; each stage's session on the server; what the gate saw for each committed stage. */
    ghost var trace: seq<Traces.Act>
    ghost var sessions: map<nat, SessionId>
    ghost var proofs: map<nat, Proof>
    /** The server when the run began, and what the arm, the server and the checker had been asked by then. */
    ghost var origin: Mark
    ghost var earlier: Earlier

    constructor (plan: PipelinePlan, validator: ActionValidator, executor: RosActionExecutor, audit: EdgeAuditStore,
        server: ServerLink, checker: Checker)
      requires plan.Valid()
      ensures this.plan == plan && this.validator == validator && this.executor == executor && this.audit == audit
      ensures this.server == server && this.checker == checker
      ensures state == Created && activeSession.None? && !trialStarted && trace == [] && sessions == map[]
      ensures proofs == map[]
    {
      this.plan, this.validator, this.executor, this.audit, this.server := plan, validator, executor, audit, server;
      this.checker, earlier := checker, Earlier([], [], 0);
      state, activeSession, trialStarted := Created, None, false;
      trace, sessions, proofs, origin := [], map[], map[], Mark(server.sys, []);
    }

    ghost predicate PartsValid()
      reads executor, executor.gate, audit, server
    {
      && audit.Valid() && server.Valid()
      && plan.Valid() && validator.dimension == 7 && executor.Fit(validator.maxAbsolute)
    }

    /** The trace is what the arm and the server were really asked since the run began. */
    ghost predicate Noted()
      reads this`trace, this`earlier, executor`calls, server`calls
    {
      && Acts(executor.calls) == earlier.arm + Traces.RobotActs(trace)
      && server.calls == earlier.server + Traces.ServerActs(trace)
    }

    /** The proofs are what the gate and the checker really saw and said. */
    ghost predicate Proven()
      reads this`proofs, this`earlier, executor.gate, checker
    {
      Witnessed(plan, proofs, executor.gate.Shown(), checker.verdicts, earlier.verdicts)
    }

    /** The stage logs of this run. */
    ghost function Stages(): seq<StageLog>
      reads audit
    {
      if plan.runId in audit.runs then audit.runs[plan.runId].stages else []
    }

    /** What the run has on record holds together. */
    ghost predicate Sound()
      reads this`trace, this`sessions, this`proofs, this`earlier, executor, executor.gate, audit, server, checker
    {
      && PartsValid() && Noted() && Proven()
      && RunAgrees(server.sys, Stages(), sessions)
      && RunJustified(plan, executor.gate.profiles, Stages(), proofs)
      && Traces.Follow(trace).Some?
    }

    ghost function Phase(): Traces.Phase
      requires Traces.Follow(trace).Some?
      reads this`trace
    {
      Traces.Follow(trace).value
    }

    /** The trial that was live when the run began. */
    ghost function Live(): Option<TrialId>
      reads this`origin
    {
      origin.sys.rt.trial
    }

    /** A live trial is this run's, if none was live before it. Otherwise the run has begun none: the old one is still
        there, or it went with the server. */
    ghost predicate TrialKnown()
      reads this`trialStarted, this`origin, server
    {
      && |origin.events| <= |server.events|
      && if Live().None? then server.sys.rt.trial.Some? ==> trialStarted
         else
           && !trialStarted && Keeps(origin.sys, server.sys)
           && (server.sys.rt.trial == Live() || (!Up(server.sys.rt) && Disturbed(server.events, |origin.events|)))
    }

    /** The run is under way. */
    ghost predicate Running()
      reads this`trace, this`sessions, this`proofs, this`state, this`trialStarted, this`origin, this`earlier,
        executor, executor.gate, audit, server, checker
    {
      && Sound()
      && audit.active.Some? && audit.active.value.run == plan.runId && audit.active.value.planned == plan.Skills()
      && TrialKnown() && NoAbort(server.events, |origin.events|)
      && state != PipelineState.SafeStop && state != PipelineState.PipelineFailed
      && Phase() in {Traces.Between, Traces.InStage}
    }

    ghost predicate In(phase: Traces.Phase)
      reads this`trace, this`sessions, this`proofs, this`state, this`trialStarted, this`origin, this`earlier,
        executor, executor.gate, audit, server, checker
    {
      Running() && Phase() == phase
    }

    /** Stage `index` is the open one. */
    ghost predicate Current(index: nat)
      reads audit
    {
      && index < |plan.stages|
      && audit.active.Some? && audit.active.value.stageOpen && audit.active.value.completed == index
      && |Stages()| == index + 1 && Stages()[index].record.None?
      && Stages()[index].skill == plan.stages[index].skill && Stages()[index].trial == plan.TrialOf(index)
    }

    ghost method Note(act: Traces.Act)
      requires Traces.Follow(trace).Some? && Traces.After(Phase(), act).Some?
      modifies this`trace
      ensures trace == old(trace) + [act] && Traces.Follow(trace) == Traces.After(old(Phase()), act)
      ensures Traces.RobotActs(trace) == old(Traces.RobotActs(trace)) + if Traces.RobotAct(act) then [act] else []
      ensures Traces.ServerActs(trace) == old(Traces.ServerActs(trace)) + if Traces.ServerAct(act) then [act] else []
    {
      Traces.FollowMore(trace, act);
      Traces.ActsMore(trace, act);
      trace := trace + [act];
    }

    /** A call to the arm or the server is in the trace and in the other's own log. */
    twostate lemma NotedCall()
      requires old(Noted()) && earlier == old(earlier) && trace != []
      requires var act := trace[|trace| - 1];
        var arm, remote := if Traces.RobotAct(act) then [act] else [], if Traces.ServerAct(act) then [act] else [];
        && Traces.RobotActs(trace) == old(Traces.RobotActs(trace)) + arm
        && Traces.ServerActs(trace) == old(Traces.ServerActs(trace)) + remote
        && Acts(executor.calls) == old(Acts(executor.calls)) + arm
        && server.calls == old(server.calls) + remote
      ensures Noted()
    {
      hide Acts, Traces.RobotActs, Traces.ServerActs;
    }

    /** The server alone has moved. */
    twostate lemma PartsStay()
      requires old(PartsValid()) && server.Valid() && unchanged(executor, executor.gate, audit)
      ensures PartsValid()
    {
    }

    /** More samples and verdicts do not take a proof away. */
    twostate lemma StillProven()
      requires old(Proven()) && proofs == old(proofs) && earlier == old(earlier)
      requires Recalls(old(executor.gate.Shown()), executor.gate.Shown()) && old(checker.verdicts) <= checker.verdicts
      ensures Proven()
    {
      StillWitnessed(plan, proofs, old(executor.gate.Shown()), old(checker.verdicts), earlier.verdicts,
        executor.gate.Shown(), checker.verdicts);
    }

    // ----- calls to the server -----

    /** Commands that open no trial keep what the run knows of its own. */
    twostate lemma StillKnown()
      requires old(TrialKnown()) && Live().None? && old(server.events) <= server.events
      requires server.sys.rt.trial == old(server.sys.rt.trial) || server.sys.rt.trial.None?
      requires origin == old(origin) && trialStarted == old(trialStarted)
      ensures TrialKnown()
    {
    }

    method CallPrepare(skill: Skill) returns (r: Outcome<()>)
      requires In(Traces.Between) && !trialStarted
      modifies this`trace, server
      ensures In(Traces.Between)
      ensures r.Returned? ==> server.sys.rt.activeSkill == Some(skill) && Live().None? && server.sys.rt.trial.None?
    {
      hide Traces.Follow, Noted, Proven, RunAgrees, RunJustified, Grown, ServerInvariant.Inv, Quiescent, executor.Fit,
        audit.Valid, NoAbort, Disturbed;
      Note(Traces.Remote(Traces.PrepareSkill));
      r := server.PrepareSkill(skill);
      NotedCall();
      RunAgreementLasts(old(server.sys), server.sys, Stages(), sessions);
      StillNoAbort(old(server.events), server.events, |origin.events|);
      StillDisturbed(old(server.events), server.events, |origin.events|);
    }

    method CallBegin(trial: TrialId, seed: int) returns (r: Outcome<()>)
      requires In(Traces.Between) && trialStarted && server.sys.rt.trial.None?
      modifies this`trace, server
      ensures In(Traces.Between) && server.sys.rt.trial in {None, Some(trial)}
      ensures SamePolicy(old(server.sys), server.sys)
      ensures r.Returned? ==> NoLeaseOf(server.sys, trial)
    {
      hide Traces.Follow, Noted, Proven, RunAgrees, RunJustified, Grown, ServerInvariant.Inv, Quiescent, executor.Fit,
        audit.Valid, NoAbort, Disturbed, server.SameTrial;
      Note(Traces.Remote(Traces.BeginTrial));
      r := server.BeginTrial(trial, seed);
      NotedCall();
      StillNoAbort(old(server.events), server.events, |origin.events|);
      RunAgreementLasts(old(server.sys), server.sys, Stages(), sessions);
    }

    /** The server's trial, if any, is the current stage's, and its only session is `id`. */
    ghost predicate InTrial(index: nat, id: SessionId)
      reads server
    {
      && index < |plan.stages|
      && server.sys.rt.trial in {None, Some(plan.TrialOf(index))}
      && OnlyLease(server.sys, plan.TrialOf(index), id)
    }

    lemma InTrialLasts(index: nat, id: SessionId, s: ServerSystem.System, n: ServerSystem.System,
                       asker: Option<SessionId>, number: nat)
      requires index < |plan.stages| && s.rt.trial in {None, Some(plan.TrialOf(index))}
      requires OnlyLease(s, plan.TrialOf(index), id)
      requires Grown(s, n, asker, number) && Keeps(s, n)
      ensures n.rt.trial in {None, Some(plan.TrialOf(index))} && OnlyLease(n, plan.TrialOf(index), id)
    {
      hide Grown;
      OnlyLeaseLasts(s, n, plan.TrialOf(index), id, asker, number);
    }

    method CallOpen(index: nat) returns (r: Outcome<Grant>)
      requires In(Traces.Between) && Current(index) && index !in sessions && Live().None?
      requires server.sys.rt.trial in {None, Some(plan.TrialOf(index))} && NoLeaseOf(server.sys, plan.TrialOf(index))
      modifies this`trace, this`sessions, server
      ensures In(Traces.Between)
      ensures r.Returned? ==>
        && index in sessions && sessions[index] == r.value.session && InTrial(index, r.value.session)
        && Issued(server.sys, r.value.session, 0) && IsLease(server.sys, r.value)
        && Some(r.value.skill) == old(server.sys).rt.activeSkill
    {
      hide Traces.Follow, Traces.RobotActs, Traces.ServerActs, Noted, Proven, RunAgrees, RunJustified, Grown,
        ServerInvariant.Inv, Quiescent, PartsValid, NoAbort, TrialKnown, server.SameTrial,
        SessionOpened, NoLeaseOf, OnlyLease, Issued, IsLease;
      SoundServer();
      Note(Traces.Remote(Traces.OpenSession));
      ghost var made;
      r, made := server.OpenSession();
      PartsStay();
      NotedCall();
      StillKnown();
      StillNoAbort(old(server.events), server.events, |origin.events|);
      OpeningAgrees(old(server.sys), server.sys, Stages(), sessions, index, made);
      if r.Returned? {
        GrantIs(server.sys, r.value);
      }
      if made.Some? {
        sessions := sessions[index := made.value];
      }
    }

    method CallClose(id: SessionId, index: nat) returns (r: Outcome<()>)
      requires In(Traces.Between) && InTrial(index, id) && Live().None?
      modifies this`trace, server
      ensures In(Traces.Between) && InTrial(index, id)
      ensures forall k: nat :: Issued(old(server.sys), id, k) ==> Issued(server.sys, id, k)
    {
      hide Traces.Follow, Noted, Proven, RunAgrees, RunJustified, Grown, ServerInvariant.Inv, Quiescent, executor.Fit,
        audit.Valid, NoAbort, TrialKnown, server.SameTrial, Traces.RobotActs, Traces.ServerActs;
      Note(Traces.Remote(Traces.CloseSession));
      r := server.CloseSession(id);
      NotedCall();
      StillKnown();
      StillNoAbort(old(server.events), server.events, |origin.events|);
      RunAgreementLasts(old(server.sys), server.sys, Stages(), sessions);
      InTrialLasts(index, id, old(server.sys), server.sys, None, 0);
      IssuedLasts(old(server.sys), server.sys, id);
    }

    method CallEnd(id: SessionId, index: nat) returns (r: Outcome<TrialAudit.Manifest>)
      requires In(Traces.Between) && InTrial(index, id) && Live().None?
      modifies this`trace, server
      ensures In(Traces.Between)
      ensures forall k: nat :: Issued(old(server.sys), id, k) ==> Issued(server.sys, id, k)
      ensures r.Returned? ==>
        && server.sys.rt.trial.None? && TrialClosed(server.sys, r.value) && r.value.trial == plan.TrialOf(index)
        && id in server.sys.rt.leases && r.value.requestCount == |ServerInvariant.SessionRows(server.sys.rt, id)|
    {
      hide Traces.Follow, Noted, Proven, RunAgrees, RunJustified, Grown, ServerInvariant.Inv, Quiescent, executor.Fit,
        audit.Valid, NoAbort, TrialKnown, server.SameTrial, Traces.RobotActs, Traces.ServerActs;
      Note(Traces.Remote(Traces.EndTrial));
      r := server.EndTrial();
      NotedCall();
      StillKnown();
      StillNoAbort(old(server.events), server.events, |origin.events|);
      RunAgreementLasts(old(server.sys), server.sys, Stages(), sessions);
      InTrialLasts(index, id, old(server.sys), server.sys, None, 0);
      IssuedLasts(old(server.sys), server.sys, id);
      if r.Returned? {
        SummaryCountsSession(server.sys, r.value, id);
      }
    }

    /** Samples an observation and sends request number `sequence` of the session. */
    method Ask(grant: Grant, sequence: nat, index: nat) returns (r: Outcome<Response>)
      requires In(Traces.InStage) && Current(index) && InTrial(index, grant.session) && Live().None?
      requires index in sessions && sessions[index] == grant.session && sequence == |Stages()[index].rows|
      requires Issued(server.sys, grant.session, sequence) && IsLease(server.sys, grant)
      modifies this`trace, server
      ensures In(Traces.InStage) && InTrial(index, grant.session) && IsLease(server.sys, grant)
      ensures grant.session in server.sys.rt.leases && Issued(server.sys, grant.session, sequence + 1)
      ensures r.Raised? ==> !BudgetFault(r.code)
      // the answer is the server's row of that number
      ensures r.Returned? ==>
        var rows := ServerInvariant.SessionRows(server.sys.rt, grant.session);
        sequence < |rows| && rows[sequence] == r.value.row
        && r.value.row.skill == grant.skill && r.value.row.generation == grant.generation
        && r.value.row.session == grant.session && r.value.row.sequence == sequence
    {
      hide In, InTrial, Grown, ServerInvariant.OfSession;
      var observation: int, valid: bool := *, *;
      if !valid {
        return Raised(ObservationStale);
      }
      var req := Request(grant.session, grant.token, grant.trial, grant.skill, grant.generation, sequence, observation);
      r := CallInfer(grant, req, index);
      if r.Returned? {
        ResponseValidation.PassingResponseIsTheRow(server.sys, req, r.value);
      }
    }

    method CallInfer(grant: Grant, req: Request, index: nat) returns (r: Outcome<Response>)
      requires In(Traces.InStage) && Current(index) && InTrial(index, grant.session) && Live().None?
      requires index in sessions && sessions[index] == grant.session && req.sequence == |Stages()[index].rows|
      requires Issued(server.sys, grant.session, req.sequence) && IsLease(server.sys, grant)
      requires req.session == grant.session
      modifies this`trace, server
      ensures In(Traces.InStage) && InTrial(index, grant.session) && IsLease(server.sys, grant)
      ensures grant.session in server.sys.rt.leases && Issued(server.sys, grant.session, req.sequence + 1)
      ensures r.Raised? ==> !BudgetFault(r.code)
      ensures ServerInvariant.Inv(server.sys)
      ensures r.Returned? ==>
        r.value in server.sys.responses && ResponseValidation.Validate(req, r.value).Returned?
    {
      hide Traces.Follow, Noted, Proven, RunAgrees, RunJustified, Grown, ServerInvariant.Inv, Quiescent, executor.Fit,
        audit.Valid, NoAbort, TrialKnown, server.SameTrial, Traces.RobotActs, Traces.ServerActs, Issued, OnlyLease,
        IsLease;
      Note(Traces.Infer);
      LeasedGrant(server.sys, grant);
      r := server.Infer(req);
      NotedCall();
      StillKnown();
      StillNoAbort(old(server.events), server.events, |origin.events|);
      AskingKeepsAgreement(old(server.sys), server.sys, Stages(), sessions, index);
      InTrialLasts(index, grant.session, old(server.sys), server.sys, Some(grant.session), req.sequence);
      IssuedNext(old(server.sys), server.sys, grant.session, req.sequence);
      GrantLasts(old(server.sys), server.sys, grant, req.sequence);
      LeasedGrant(server.sys, grant);
    }

    lemma LeasedGrant(s: ServerSystem.System, grant: Grant)
      requires IsLease(s, grant)
      ensures grant.session in s.rt.leases
    {
    }

    // ----- calls to the robot -----

    method CallReset(skill: Skill) returns (r: Outcome<()>)
      requires In(Traces.Between)
      modifies this`trace, executor
      ensures In(Traces.Between)
    {
      hide Traces.Follow, Noted, Proven, RunAgrees, RunJustified, server.Valid, executor.Valid, audit.Valid,
        executor.InBox, executor.Rested, executor.Settled, executor.Kept;
      Note(Traces.ResetArm);
      ghost var start, hold, sent;
      r, start, hold, sent := executor.Reset(skill);
      NotedCall();
      StillProven();
    }

    method CallBeginStage(skill: Skill) returns (r: Outcome<()>)
      requires In(Traces.Between)
      modifies this`trace, executor, executor.gate
      ensures In(Traces.InStage)
      ensures r.Returned? ==> executor.activeSkill == Some(skill) && executor.publishedRows == 0
    {
      hide Traces.Follow, Noted, Proven, RunAgrees, RunJustified, server.Valid, executor.Valid, audit.Valid,
        executor.InBox, executor.Rested, executor.Settled, executor.Kept;
      Note(Traces.BeginStage);
      r := executor.BeginStage(skill);
      NotedCall();
      StillProven();
    }

    method CallPublish(rows: seq<Pose>) returns (r: Outcome<PublishResult>)
      requires In(Traces.InStage) && SameWidth(rows, 7) && AllBounded(rows, validator.maxAbsolute)
      modifies this`trace, executor, executor.gate
      ensures In(Traces.InStage) && executor.activeSkill == old(executor.activeSkill)
      ensures r.Returned? ==>
        && 0 < r.value.publishedRows <= |rows|
        && executor.publishedRows == old(executor.publishedRows) + r.value.publishedRows
        && executor.Settled(r.value, r.value.publishedRows, |rows|)
      ensures r.Raised? ==> !BudgetFault(r.code)
    {
      hide Traces.Follow, Noted, Proven, RunAgrees, RunJustified, server.Valid, executor.Valid, audit.Valid,
        executor.InBox, executor.Rested, executor.Settled, executor.Kept;
      Note(Traces.PublishChunk);
      ghost var hold, sent;
      r, hold, sent := executor.Publish(rows);
      NotedCall();
      StillProven();
    }

    method CallStop() returns (r: Outcome<()>)
      requires In(Traces.InStage)
      modifies this`trace, executor
      ensures In(Traces.Between)
    {
      hide Traces.Follow, Noted, Proven, RunAgrees, RunJustified, server.Valid, executor.Valid, audit.Valid,
        executor.InBox, executor.Rested, executor.Settled, executor.Kept;
      Note(Traces.StopArm);
      ghost var hold, sent;
      r, hold, sent := executor.Stop();
      NotedCall();
      StillProven();
    }

    // ----- calls to the edge's audit -----

    method Transition(target: PipelineState) returns (r: Outcome<()>)
      requires Running() && target != PipelineState.SafeStop && target != PipelineState.PipelineFailed
      modifies this`state, audit`runs
      ensures Running() && Stages() == old(Stages())
      ensures forall i: nat :: old(Current(i)) ==> Current(i)
      ensures r.Returned? ==> state == target
      ensures state == old(state) || (state == target && target in PipelineTargets(old(state)))
    {
      hide Traces.Follow, Noted, Proven, RunAgrees, RunJustified, server.Valid, executor.Fit, audit.Valid,
        CommittedStage;
      if target !in PipelineTargets(state) {
        return Raised(StateRejected);
      }
      state := target;
      r := audit.SetPipelineState(target);
    }

    method CallStartStage(index: nat) returns (r: Outcome<()>)
      requires Running() && index < |plan.stages| && audit.active.value.completed == index == |Stages()|
      requires !audit.active.value.stageOpen
      modifies audit
      ensures Running() && index !in sessions
      ensures r.Returned? ==> Current(index) && Stages()[index].rows == []
    {
      hide Traces.Follow, Noted, Proven, RunAgrees, RunJustified, server.Valid, executor.Fit, audit.Valid,
        CommittedStage;
      r := audit.StartStage(index, plan.stages[index].skill, plan.TrialOf(index));
      NoSessionYet(server.sys, old(Stages()), sessions);
      if audit.active.value.stageOpen {
        var log := StageLog(plan.stages[index].skill, plan.TrialOf(index), [], None, None);
        AddStage(server.sys, old(Stages()), sessions, log);
        AddJustified(plan, executor.gate.profiles, old(Stages()), proofs, log);
      }
    }

    method CallRecord(index: nat, row: EdgeRow) returns (r: Outcome<()>)
      requires Running() && Current(index) && index in sessions && sessions[index] in server.sys.rt.leases
      requires var rows := ServerInvariant.SessionRows(server.sys.rt, sessions[index]);
        |Stages()[index].rows| < |rows| && SameRequest(row, rows[|Stages()[index].rows|])
      modifies audit
      ensures Running() && Current(index)
      ensures r.Raised? ==> r.code == AuditCommitFailed
      ensures r.Returned? ==> Stages()[index].rows == old(Stages()[index].rows) + [row]
    {
      hide Traces.Follow, Noted, Proven, RunAgrees, RunJustified, server.Valid, executor.Fit, audit.Valid,
        CommittedStage, TrialKnown, NoAbort;
      r := audit.RecordRollout(row);
      if Stages() != old(Stages()) {
        var log := old(Stages()[index]);
        Agreed(server.sys, old(Stages()), sessions, index);
        RecordingKeepsAgreement(server.sys, log, sessions[index], row);
        ReplaceStage(server.sys, old(Stages()), sessions, index, log.(rows := log.rows + [row]));
        ReplaceJustified(plan, executor.gate.profiles, old(Stages()), proofs, index, log.(rows := log.rows + [row]));
      }
    }

    ghost method NoteCommit()
      requires In(Traces.Between)
      modifies this`trace
      ensures In(Traces.Between)
    {
      hide Traces.Follow, Traces.RobotActs, Traces.ServerActs, Noted, Proven, Acts, RunAgrees, RunJustified,
        PartsValid, TrialKnown, NoAbort;
      Note(Traces.CommitStage);
      NothingSent();
      NotedCall();
    }

    lemma NothingSent()
      ensures Acts(executor.calls) == Acts(executor.calls) + [] && server.calls == server.calls + []
    {
    }

    /** Commits the current stage on evidence that really holds. */
    method CallComplete(index: nat, record: StageRecord, ghost proof: Proof) returns (r: Outcome<()>)
      requires In(Traces.Between) && Current(index) && index in sessions && !trialStarted
      requires plan.stages[index].skill in executor.gate.profiles
      requires Justified(plan.stages[index], executor.gate.profiles[plan.stages[index].skill], proof,
          Stages()[index].(record := Some(record)))
      requires StageAgrees(server.sys, Stages()[index].(record := Some(record)), Some(sessions[index]))
      requires Backs(plan.stages[index].skill, proof, executor.gate.Shown(), checker.verdicts, earlier.verdicts)
      modifies this`trace, this`proofs, audit
      ensures In(Traces.Between)
      ensures r.Returned? ==> audit.active.value.completed == index + 1 == |Stages()| && !audit.active.value.stageOpen
    {
      hide Traces.Follow, Noted, Witnessed, Backs, RunAgrees, RunJustified, server.Valid, executor.Fit, audit.Valid,
        CommittedStage, Justified, StageAgrees, TrialKnown, NoAbort;
      NoteCommit();
      r := audit.CompleteStage(record);
      if audit.active.value.completed != index {
        var log := old(Stages()[index]).(record := Some(record));
        ReplaceStage(server.sys, old(Stages()), sessions, index, log);
        CommitJustified(plan, executor.gate.profiles, old(Stages()), proofs, index, log, proof);
        MoreWitnessed(plan, proofs, executor.gate.Shown(), checker.verdicts, earlier.verdicts, index, proof);
        proofs := proofs[index := proof];
      }
    }

    // ----- _rollout -----

    /** Where the rollout of a stage stands after its first `done` requests: each has its row, and each asked for a
        full chunk. */
    ghost predicate Rolling(index: nat, id: SessionId, done: nat, steps: nat)
      reads this`sessions, this`origin, executor, audit, server
    {
      && Current(index) && InTrial(index, id) && index in sessions && sessions[index] == id && Live().None?
      && Issued(server.sys, id, done)
      && |Stages()[index].rows| == done && Accounted(Stages()[index].rows) && TotalOf(Stages()[index].rows) == steps
      && executor.activeSkill == Some(plan.stages[index].skill) && executor.publishedRows == steps
    }

    ghost predicate RolledOut(index: nat, id: SessionId)
      reads this`sessions, this`origin, executor, audit, server
    {
      Current(index) && Rolling(index, id, |Stages()[index].rows|, executor.publishedRows)
    }

    /** The rows published so far fit the stage, and the gate let it stop here. */
    ghost predicate StoppedWell(index: nat, result: PublishResult, proof: Proof)
      requires index < |plan.stages|
      reads executor, executor.gate
    {
      var stage := plan.stages[index];
      && result.gateResult.Some? && result.gateResult.value.passed && stage.skill in executor.gate.profiles
      && EarnedBy(executor.gate.profiles[stage.skill], proof.history, proof.evidence, result.gateResult.value)
      && executor.gate.profiles[stage.skill].minPublishStep <= executor.publishedRows <= stage.actionSteps
      && WasShown(executor.gate.Shown(), Seen(stage.skill, proof.history))
    }

    lemma Widths()
      requires Running()
      ensures validator.dimension == 7
    {
    }

    lemma ChunkSettled(index: nat, steps: nat, result: PublishResult, all: nat)
      requires index < |plan.stages| && executor.activeSkill == Some(plan.stages[index].skill)
      requires executor.publishedRows == steps <= plan.stages[index].actionSteps
      requires executor.Settled(result, result.publishedRows, all)
      ensures if result.stopRequested
              then StoppedWell(index, result, Proof(executor.gate.history, executor.gate.evidence, None))
              else result.publishedRows == all
    {
      if result.stopRequested {
        var shown := executor.gate.Shown();
        assert shown[|shown| - 1] == Seen(plan.stages[index].skill, executor.gate.history);
      }
    }

    /** The robot's part of a round: validate the actions, of which `numeric` says whether they are finite numbers,
        and publish them. */
    method PublishActions(index: nat, actions: Actions, numeric: bool, steps: nat)
      returns (r: Outcome<PublishResult>, ghost proof: Proof)
      requires In(Traces.InStage) && index < |plan.stages|
      requires executor.activeSkill == Some(plan.stages[index].skill) && executor.publishedRows == steps
      modifies this`trace, executor, executor.gate
      ensures In(Traces.InStage) && executor.activeSkill == old(executor.activeSkill)
      // valid actions over the budget, and nothing else, raise this fault; they are not published
      ensures r == Raised(ActionOverBudget) <==>
        Validate(validator, actions, numeric).Returned? && steps + validator.chunkRows > plan.stages[index].actionSteps
      ensures steps + validator.chunkRows > plan.stages[index].actionSteps ==>
        && r.Raised? && trace == old(trace)
        && executor.commands == old(executor.commands) && executor.publishedRows == steps
      ensures r != Raised(BudgetExhausted)
      ensures r.Returned? ==>
        && executor.publishedRows == steps + r.value.publishedRows <= plan.stages[index].actionSteps
        && r.value.publishedRows > 0
        && if r.value.stopRequested then StoppedWell(index, r.value, proof)
           else r.value.publishedRows == validator.chunkRows
    {
      hide Running, Phase, executor.Settled, StoppedWell;
      proof := NO_PROOF;
      Widths();
      hide Sound, PartsValid;
      var rows := Validate(validator, actions, numeric);
      if rows.Raised? {
        return Raised(rows.code), proof;
      }
      if steps + |rows.value| > plan.stages[index].actionSteps {
        return Raised(ActionOverBudget), proof;
      }
      r := CallPublish(rows.value);
      proof := Proof(executor.gate.history, executor.gate.evidence, None);
      if r.Returned? && !(0 < r.value.publishedRows <= |rows.value|) {
        return Raised(ActionInvalid), proof;
      }
      if r.Returned? {
        ChunkSettled(index, steps + r.value.publishedRows, r.value, |rows.value|);
      }
    }

    /** One round of the loop in _rollout: ask, validate, publish, record. */
    method OneChunk(index: nat, grant: Grant, sequence: nat, steps: nat)
      returns (r: Outcome<PublishResult>, ghost proof: Proof)
      requires In(Traces.InStage) && Rolling(index, grant.session, sequence, steps)
      requires IsLease(server.sys, grant) && grant.skill == plan.stages[index].skill
      modifies this`trace, executor, executor.gate, audit, server
      ensures In(Traces.InStage)
      ensures r == Raised(ActionOverBudget) ==> steps + validator.chunkRows > plan.stages[index].actionSteps
      ensures steps + validator.chunkRows > plan.stages[index].actionSteps ==>
        r.Raised? && executor.commands == old(executor.commands)
      ensures r != Raised(BudgetExhausted)
      // a round that raises has left no line, unless the line itself is what failed
      ensures r.Raised? && r.code != AuditCommitFailed ==> Current(index) && |Stages()[index].rows| == sequence
      ensures r.Returned? ==>
        && Rolling(index, grant.session, sequence + 1, steps + r.value.publishedRows) && IsLease(server.sys, grant)
        && steps + r.value.publishedRows <= plan.stages[index].actionSteps
        && if r.value.stopRequested then StoppedWell(index, r.value, proof)
           else r.value.publishedRows == validator.chunkRows
    {
      hide Running, Phase, StoppedWell, IsLease, InTrial, Accounted, TotalOf, Issued, ServerInvariant.OfSession;
      proof := NO_PROOF;
      var response := Ask(grant, sequence, index);
      if response.Raised? {
        return Raised(response.code), proof;
      }
      if !response.value.publishable {
        return Raised(ActionInvalid), proof;
      }
      var numeric: bool := *;
      r, proof := PublishActions(index, response.value.actions, numeric, steps);
      if r.Raised? {
        return;
      }
      var row := response.value.row;
      var line := EdgeRow(plan.stages[index].skill, grant.session, grant.generation, sequence,
                          r.value.publishedRows, steps + r.value.publishedRows, row.requestHash, row.actionHash);
      AccountedMore(Stages()[index].rows, line);
      var recorded := CallRecord(index, line);
      if recorded.Raised? {
        r := Raised(recorded.code);
      }
    }

    /** All the rows that max_chunks full chunks hold. */
    function WholeChunks(index: nat): int
      requires index < |plan.stages|
    {
      plan.stages[index].maxChunks * validator.chunkRows
    }

    /** _rollout. `proof` is what the gate had seen when it stopped the stage. */
    method Rollout(index: nat, grant: Grant) returns (r: Outcome<PublishResult>, ghost proof: Proof)
      requires In(Traces.InStage) && Rolling(index, grant.session, 0, 0)
      requires IsLease(server.sys, grant) && grant.skill == plan.stages[index].skill
      modifies this`trace, executor, executor.gate, audit, server
      ensures In(Traces.InStage)
      ensures r.Returned? ==> RolledOut(index, grant.session) && StoppedWell(index, r.value, proof)
      // with a budget of whole chunks the over-budget fault is impossible
      ensures plan.stages[index].actionSteps == WholeChunks(index) ==> r != Raised(ActionOverBudget)
      // the budget is exhausted only after every chunk was asked for, published whole and recorded
      ensures r == Raised(BudgetExhausted) ==>
        && RolledOut(index, grant.session) && |Stages()[index].rows| == plan.stages[index].maxChunks
        && executor.publishedRows == WholeChunks(index) <= plan.stages[index].actionSteps
      // and it is the only way to raise with that many lines, if no line failed
      ensures r.Raised? ==>
        || r.code == BudgetExhausted || r.code == AuditCommitFailed
        || (Current(index) && |Stages()[index].rows| < plan.stages[index].maxChunks)
    {
      hide Traces.Follow, Noted, Proven, RunAgrees, RunJustified, server.Valid, audit.Valid, executor.Fit, EarnedBy,
        NoAbort, TrialKnown;
      proof := NO_PROOF;
      var stage := plan.stages[index];
      var steps: nat, sequence: nat := 0, 0;
      while sequence < stage.maxChunks
        invariant 0 <= sequence <= stage.maxChunks
        invariant In(Traces.InStage) && Rolling(index, grant.session, sequence, steps)
        invariant IsLease(server.sys, grant)
        invariant steps == sequence * validator.chunkRows <= stage.actionSteps
      {
        r, proof := OneChunk(index, grant, sequence, steps);
        ChunksAddUp(sequence, stage.maxChunks, validator.chunkRows);
        if r.Raised? {
          return r, proof;
        }
        if r.value.stopRequested {
          if r.value.gateResult.None? || !r.value.gateResult.value.passed {
            return Raised(JointGateFailed), proof;
          }
          return r, proof;
        }
        steps, sequence := steps + r.value.publishedRows, sequence + 1;
      }
      return Raised(BudgetExhausted), proof;
    }

    // ----- _run_stage -----

    lemma RolloutEarns(index: nat, rows: seq<EdgeRow>, result: PublishResult, proof: Proof)
      requires index < |plan.stages| && StoppedWell(index, result, proof) && Accounted(rows)
      requires TotalOf(rows) == executor.publishedRows
      ensures result.gateResult.Some? && plan.stages[index].skill in executor.gate.profiles
      ensures Earns(plan.stages[index], executor.gate.profiles[plan.stages[index].skill], proof, rows,
          result.gateResult.value)
      ensures WasShown(executor.gate.Shown(), Seen(plan.stages[index].skill, proof.history))
    {
    }

    lemma StageAgreesNow(index: nat)
      requires Running() && Current(index)
      ensures StageAgrees(server.sys, Stages()[index], SessionOf(sessions, index))
    {
      Agreed(server.sys, Stages(), sessions, index);
    }

    method SetTrialStarted(started: bool)
      requires Running() && Live().None? && (started || server.sys.rt.trial.None?)
      modifies this`trialStarted
      ensures Running() && trialStarted == started
    {
      hide Sound, NoAbort, Disturbed, Keeps;
      trialStarted := started;
    }

    /** A call that touches nothing here: it returns or raises. */
    method MayRaise() returns (r: Outcome<()>)
    {
      var fine: bool := *;
      return if fine then Returned(()) else Raised(ErrorCode.PipelineFailed);
    }

    /** The local half of the start of a stage. */
    method StartStage(index: nat) returns (r: Outcome<()>)
      requires In(Traces.Between) && index < |plan.stages|
      requires audit.active.value.completed == index == |Stages()| && !audit.active.value.stageOpen
      modifies this`trace, this`state, executor, audit
      ensures In(Traces.Between)
      ensures r.Returned? ==> Current(index) && Stages()[index].rows == [] && index !in sessions
    {
      hide Running, Phase, Accounted, TotalOf;
      var stage := plan.stages[index];
      var _ :- CallStartStage(index);
      var _ :- Transition(Resetting);
      if stage.resetBefore {
        var _ :- CallReset(stage.skill);
        var _ :- MayRaise();
      }
      r := Transition(PreparingPolicy);
    }

    /** The policy, the trial and the session of a stage. */
    method OpenStage(index: nat) returns (r: Outcome<Grant>)
      requires In(Traces.Between) && !trialStarted && activeSession.None?
      requires Current(index) && Stages()[index].rows == [] && index !in sessions
      modifies this`trace, this`sessions, this`trialStarted, this`activeSession, server
      ensures In(Traces.Between)
      ensures r.Returned? ==>
        && Current(index) && Stages()[index].rows == [] && trialStarted && activeSession == Some(r.value.session)
        && index in sessions && sessions[index] == r.value.session && InTrial(index, r.value.session)
        && Issued(server.sys, r.value.session, 0) && IsLease(server.sys, r.value)
        && r.value.skill == plan.stages[index].skill && Live().None?
    {
      hide Running, Phase, IsLease, InTrial, Accounted, TotalOf, StoppedWell, Earns, Justified, StageAgrees, Issued,
        TrialClosed, NoLeaseOf, ServerInvariant.OfSession;
      assert index < |plan.stages|;
      hide Current;
      var _ :- CallPrepare(plan.stages[index].skill);
      SetTrialStarted(true);
      var _ :- CallBegin(plan.TrialOf(index), plan.stages[index].rootSeed);
      var grant :- CallOpen(index);
      activeSession := Some(grant.session);
      return Returned(grant);
    }

    /** The server's side of the end of a stage: the session is closed and the trial committed, with one row per row
        of the edge. */
    method EndTrial(index: nat, id: SessionId) returns (r: Outcome<TrialAudit.Manifest>)
      requires In(Traces.Between) && Current(index) && InTrial(index, id) && Live().None?
      requires index in sessions && sessions[index] == id && Issued(server.sys, id, |Stages()[index].rows|)
      modifies this`trace, this`trialStarted, this`activeSession, server
      ensures In(Traces.Between) && Current(index)
      ensures r.Returned? ==>
        && !trialStarted && activeSession.None?
        && forall record: StageRecord :: record.summary == r.value ==>
             StageAgrees(server.sys, Stages()[index].(record := Some(record)), Some(id))
    {
      hide Running, Phase, IsLease, InTrial, Accounted, TotalOf, StoppedWell, Earns, Justified, StageAgrees, Issued,
        TrialClosed, NoLeaseOf, ServerInvariant.OfSession;
      var _ :- CallClose(id, index);
      activeSession := None;
      var summary :- CallEnd(id, index);
      if summary.status != TrialAudit.Committed {
        return Raised(AuditCommitFailed);
      }
      SetTrialStarted(false);
      StageAgreesNow(index);
      forall record: StageRecord | record.summary == summary
        ensures StageAgrees(server.sys, Stages()[index].(record := Some(record)), Some(id))
      {
        CommittingKeepsAgreement(server.sys, Stages()[index], id, record);
      }
      return Returned(summary);
    }

    /** The evidence that complete_stage is given. */
    function Evidenced(plan: StagePlan, result: PublishResult, gate: GateResult, checker: CheckerResult,
                       summary: TrialAudit.Manifest): (r: StageRecord)
      ensures r.evidence.Completed()
      ensures r.evidence.checker == (if plan.checkerRequired then EvidencePassed else NotRequired)
    {
      var reason :=
        if result.reason.Some? && result.reason.value != "" then result.reason else Some("joint_rest_detected");
      StageRecord(
        StageEvidence(Some(0), reason, true, EvidencePassed,
                      if plan.checkerRequired then EvidencePassed else NotRequired, EvidencePassed, EvidencePassed),
        gate, checker, summary)
    }

    /** The checker's verdict, which stays on its record. */
    method CallChecker(skill: Skill) returns (r: Outcome<CheckerResult>)
      requires In(Traces.Between)
      modifies checker
      ensures In(Traces.Between)
      ensures r.Returned? ==> Said(checker.verdicts, earlier.verdicts, Verdict(skill, r.value))
    {
      hide Traces.Follow, Noted, Proven, RunAgrees, RunJustified, server.Valid, executor.Fit, audit.Valid;
      EnoughVerdicts();
      r := checker.Evaluate(skill);
      RecallsItself(executor.gate.Shown());
      StillProven();
      if r.Returned? {
        assert checker.verdicts[|old(checker.verdicts)|] == Verdict(skill, r.value);
      }
    }

    lemma EnoughVerdicts()
      requires Proven()
      ensures earlier.verdicts <= |checker.verdicts|
    {
    }

    /** The rest of _run_stage: the gate's verdict, the checker, the commit. */
    method FinishStage(index: nat, id: SessionId, result: PublishResult, summary: TrialAudit.Manifest,
                       ghost proof: Proof) returns (r: Outcome<()>)
      requires In(Traces.Between) && Current(index) && index in sessions && sessions[index] == id && !trialStarted
      requires result.gateResult.Some? && plan.stages[index].skill in executor.gate.profiles
      requires Earns(plan.stages[index], executor.gate.profiles[plan.stages[index].skill], proof,
          Stages()[index].rows, result.gateResult.value)
      requires WasShown(executor.gate.Shown(), Seen(plan.stages[index].skill, proof.history))
      requires forall record: StageRecord :: record.summary == summary ==>
        StageAgrees(server.sys, Stages()[index].(record := Some(record)), Some(id))
      modifies this`trace, this`proofs, this`state, audit, checker
      ensures In(Traces.Between)
      ensures r.Returned? ==> audit.active.value.completed == index + 1 == |Stages()| && !audit.active.value.stageOpen
    {
      hide Running, Phase, Earns, StageAgrees, ServerInvariant.OfSession;
      var stage := plan.stages[index];
      var _ :- Transition(JointGate);
      if result.gateResult.None? || !result.gateResult.value.passed {
        return Raised(JointGateFailed);
      }
      var _ :- Transition(Checking);
      var verdict := CheckerResult(true, 1.0, 0.0, "not_required", "checker_not_required");
      ghost var said := None;
      if stage.checkerRequired {
        verdict :- CallChecker(stage.skill);
        if !verdict.passed {
          return Raised(CheckerFailed);
        }
        said := Some(Verdict(stage.skill, verdict));
      }
      var record := Evidenced(stage, result, result.gateResult.value, verdict, summary);
      StillEarns(stage, executor.gate.profiles[stage.skill], proof, Stages()[index].rows, record.gate, said);
      var _ :- CallComplete(index, record, proof.(said := said));
      r := Transition(Handoff);
    }

    /** The robot's part of a stage: from begin_stage to the stop after the rollout. */
    method RollOutStage(index: nat, grant: Grant) returns (r: Outcome<PublishResult>, ghost proof: Proof)
      requires In(Traces.Between) && Current(index) && Stages()[index].rows == [] && Live().None?
      requires index in sessions && sessions[index] == grant.session && InTrial(index, grant.session)
      requires Issued(server.sys, grant.session, 0) && IsLease(server.sys, grant)
      requires grant.skill == plan.stages[index].skill
      modifies this`trace, this`state, executor, executor.gate, audit, server
      ensures Running()
      ensures r.Returned? ==>
        && Phase() == Traces.Between && Current(index) && InTrial(index, grant.session)
        && Issued(server.sys, grant.session, |Stages()[index].rows|)
        && r.value.gateResult.Some? && plan.stages[index].skill in executor.gate.profiles
        && Earns(plan.stages[index], executor.gate.profiles[plan.stages[index].skill], proof, Stages()[index].rows,
            r.value.gateResult.value)
        && WasShown(executor.gate.Shown(), Seen(plan.stages[index].skill, proof.history))
    {
      hide Running, Phase, IsLease, InTrial, Accounted, TotalOf, StoppedWell, Earns, Justified, StageAgrees, Issued,
        TrialClosed, NoLeaseOf, ServerInvariant.OfSession;
      proof := NO_PROOF;
      NoRowsAccounted();
      var ready := Transition(ReadyToRollout);
      if ready.Raised? {
        return Raised(ready.code), proof;
      }
      var begun := CallBeginStage(plan.stages[index].skill);
      if begun.Raised? {
        return Raised(begun.code), proof;
      }
      var rolling := Transition(PipelineState.Rollout);
      if rolling.Raised? {
        return Raised(rolling.code), proof;
      }
      r, proof := Rollout(index, grant);
      if r.Raised? {
        return;
      }
      RolloutEarns(index, Stages()[index].rows, r.value, proof);
      var stopped := CallStop();
      if stopped.Raised? {
        r := Raised(stopped.code);
      }
    }

    /** The first `index` stages are committed and the next one has not started. */
    ghost predicate AtStage(index: nat)
      reads this`trace, this`sessions, this`proofs, this`state, this`trialStarted, this`origin, this`activeSession,
        this`earlier, executor, executor.gate, audit, server, checker
    {
      && In(Traces.Between) && !trialStarted && activeSession.None?
      && audit.active.value.completed == index == |Stages()| && !audit.active.value.stageOpen
    }

    /** One stage of the plan. */
    method RunStage(index: nat) returns (r: Outcome<()>)
      requires AtStage(index) && index < |plan.stages|
      modifies this`trace, this`sessions, this`proofs, this`state, this`trialStarted, this`activeSession,
        executor, executor.gate, audit, server, checker
      ensures Running()
      ensures r.Returned? ==> AtStage(index + 1) && Live().None?
    {
      hide Running, Phase, IsLease, InTrial, Accounted, TotalOf, StoppedWell, Earns, Justified, StageAgrees, Issued,
        TrialClosed, NoLeaseOf, ServerInvariant.OfSession;
      hide Current;
      var _ :- StartStage(index);
      var grant :- OpenStage(index);
      var result, proof := RollOutStage(index, grant);
      if result.Raised? {
        return Raised(result.code);
      }
      var summary :- EndTrial(index, grant.session);
      r := FinishStage(index, grant.session, result.value, summary, proof);
    }

    // ----- _safe_stop -----

    /** Nothing is left on the server: it is ready again, unless it went down or was never prepared. */
    ghost predicate Clean()
      reads server
    {
      && server.sys.rt.trial.None? && server.sys.rt.session.None?
      && server.sys.rt.state in {Starting, Ready, RuntimeState.Failed, Stopping}
      && (server.sys.rt.state == Starting ==> server.sys.rt.generation == 0)
      && (Healthy(server.start, server.events) ==> server.sys.rt.state == Ready || server.sys.rt.state == Starting)
    }

    /** The run has sent an abort. */
    ghost predicate Aborted()
      reads this`trace
    {
      Traces.Remote(Traces.AbortTrial) in trace
    }

    /** The server's log of this run shows that its abort got through: all the way, or to a server that is still up. */
    ghost predicate AbortWorked()
      reads this`origin, server
    {
      var fate := FateOf(server.events, |origin.events|);
      fate.Landed() || (fate.reached && Up(server.sys.rt))
    }

    /** A failed run whose arm has been told to stop. */
    ghost predicate Halting()
      reads this`trace, this`sessions, this`proofs, this`trialStarted, this`origin, this`earlier, executor,
        executor.gate, audit, server, checker
    {
      && Sound() && Phase() == Traces.Halted && audit.active.Some? && audit.active.value.run == plan.runId
      && TrialKnown() && NoAbort(server.events, |origin.events|) && !Aborted()
    }

    /** A run that is about to stop. */
    ghost predicate Failing()
      reads this`trace, this`sessions, this`proofs, this`trialStarted, this`origin, this`earlier, executor,
        executor.gate, audit, server, checker
    {
      && Sound() && Phase() in {Traces.Between, Traces.InStage}
      && audit.active.Some? && audit.active.value.run == plan.runId
      && TrialKnown() && NoAbort(server.events, |origin.events|)
    }

    ghost method NoteHalt()
      requires Traces.Follow(trace).Some? && Phase() in {Traces.Between, Traces.InStage}
      modifies this`trace
      ensures trace == old(trace) + [Traces.Failure, Traces.StopArm] && !Aborted()
      ensures Traces.Follow(trace) == Some(Traces.Halted)
      ensures Traces.RobotActs(trace) == old(Traces.RobotActs(trace)) + [Traces.StopArm]
      ensures Traces.ServerActs(trace) == old(Traces.ServerActs(trace)) + []
    {
      hide Traces.Follow, Traces.RobotActs, Traces.ServerActs;
      Traces.NoAbortYet(trace);
      Note(Traces.Failure);
      Note(Traces.StopArm);
      assert trace == old(trace) + [Traces.Failure, Traces.StopArm];
    }

    method HaltArm()
      requires Failing()
      modifies this`trace, executor
      ensures Halting() && trace == old(trace) + [Traces.Failure, Traces.StopArm]
      ensures executor.policy == old(executor.policy) && OnlyHeld(old(executor.commands), executor.commands)
    {
      hide Traces.Follow, Traces.RobotActs, Traces.ServerActs, Noted, Proven, RunAgrees, RunJustified, server.Valid,
        executor.Valid, audit.Valid, executor.InBox, executor.Kept, NoAbort, TrialKnown, Aborted, Repeated;
      NoteHalt();
      var stopped, hold, sent := executor.Stop();
      assert OnlyHeld(old(executor.commands), executor.commands);
      hide OnlyHeld;
      NotedCall();
      StillProven();
    }

    method HaltSession(id: SessionId)
      requires Halting()
      modifies this`trace, server
      ensures Halting() && server.SameTrial(old(server.Here())) && old(server.events) <= server.events
      ensures trace == old(trace) + [Traces.Remote(Traces.CloseSession)]
    {
      hide Traces.Follow, Noted, Proven, RunAgrees, RunJustified, Grown, ServerInvariant.Inv, Quiescent, executor.Fit,
        audit.Valid, NoAbort;
      Note(Traces.Remote(Traces.CloseSession));
      var closed := server.CloseSession(id);
      NotedCall();
      RunAgreementLasts(old(server.sys), server.sys, Stages(), sessions);
      StillNoAbort(old(server.events), server.events, |origin.events|);
      StillDisturbed(old(server.events), server.events, |origin.events|);
    }

    method HaltTrial(reaches: bool)
      requires Halting() && trialStarted
      modifies this`trace, server
      ensures reaches ==> FateOf(server.events, |origin.events|).reached
      ensures trace == old(trace) + [Traces.Remote(Traces.AbortTrial)]
      ensures Halted() && Aborted() && Live().None? && (AbortWorked() ==> server.sys.rt.trial.None?)
    {
      hide Traces.Follow, Noted, Proven, RunAgrees, RunJustified, Grown, ServerInvariant.Inv, Quiescent, executor.Fit,
        audit.Valid, NoAbort;
      Note(Traces.Remote(Traces.AbortTrial));
      var aborted := server.Abort(reaches);
      NotedCall();
      RunAgreementLasts(old(server.sys), server.sys, Stages(), sessions);
      FateIsLate(old(server.events), server.events, |origin.events|);
    }

    /** Before the failure is put on record. */
    ghost predicate Halted()
      reads this`trace, this`sessions, this`proofs, this`earlier, executor, executor.gate, audit, server, checker
    {
      Sound() && Phase() == Traces.Halted && audit.active.Some? && audit.active.value.run == plan.runId
    }

    method HaltRun(code: ErrorCode)
      requires Halted()
      modifies audit
      ensures Sound() && Phase() == Traces.Halted && Stopped()
    {
      hide Traces.Follow, Noted, Proven, RunAgrees, RunJustified, server.Valid, executor.Fit, audit.Valid, NoAbort;
      OpenRun();
      var failed := audit.Fail(state, code);
      FailureKeepsAgreement(server.sys, old(Stages()), Stages(), sessions);
      FailureKeepsJustified(plan, executor.gate.profiles, old(Stages()), Stages(), proofs);
    }

    /** What the run's own record says once the run has stopped. */
    ghost predicate Stopped()
      reads audit
    {
      && plan.runId in audit.runs && !audit.runs[plan.runId].Says(RunCompleted)
      && (audit.active.None? ==> audit.runs[plan.runId].Says(RunFailed))
    }

    lemma OpenRun()
      requires Halted()
      ensures plan.runId in audit.runs && audit.runs[plan.runId].Open() && Stopped()
    {
    }

    lemma CleanServer()
      requires server.Valid() && server.sys.rt.trial.None?
      ensures Clean()
    {
      hide ServerInvariant.Inv, Quiescent, Healthy;
      ServerAtRest(server.sys);
      if Healthy(server.start, server.events) {
        HealthyIsUp(server.start, server.events);
      }
    }

    lemma CleanMeans()
      ensures Clean() ==> server.sys.rt.trial.None?
    {
    }

    lemma MayFail()
      requires Running()
      ensures Failing() && TrialKnown() && state != PipelineState.SafeStop && state != PipelineState.PipelineFailed
    {
    }

    lemma HaltingFacts()
      requires Halting()
      ensures Halted() && Sound() && Phase() == Traces.Halted && server.Valid() && TrialKnown() && !Aborted()
      ensures Stopped()
      ensures trace != []
    {
      OpenRun();
    }

    lemma HaltedFacts()
      requires Halted()
      ensures Sound() && Phase() == Traces.Halted && server.Valid() && Stopped()
    {
      OpenRun();
    }

    /** The remote half of _safe_stop: the session, then the trial. `cut` says where an interrupt ended it. */
    method HaltServer(world: World) returns (cut: Option<Cut>)
      requires Halting() && world.interrupts != Some(AtStop)
      modifies this`trace, this`activeSession, this`trialStarted, server
      ensures Halted()
      ensures trace == old(trace) + Farewell(world.interrupts, old(activeSession).Some?, old(trialStarted))
      ensures cut ==
        if world.interrupts == Some(AtRecord) then None
        else CutOf(world.interrupts, old(activeSession).Some?, old(trialStarted))
      ensures cut.None? ==> activeSession.None? && !trialStarted
      // an abort is sent exactly when the run has begun a trial and nothing cut in before
      ensures Aborted() <==> old(trialStarted) && !CutsEarly(world.interrupts, old(activeSession).Some?)
      ensures Aborted() && world.abortReaches ==> FateOf(server.events, |origin.events|).reached
      ensures Aborted() ==> Live().None? && (AbortWorked() ==> server.sys.rt.trial.None?)
      // without one the trial stays as it was, unless a delivery failure or a shutdown takes it
      ensures !Aborted() ==> TrialKnown() && trialStarted == old(trialStarted) && server.SameTrial(old(server.Here()))
    {
      hide Halting, Halted, Sound, Phase, AbortWorked, TrialKnown, Disturbed, server.Valid, Live;
      HaltingFacts();
      cut := None;
      RemoteCuts(world.interrupts, activeSession.Some?, trialStarted);
      hide CutOf;
      if activeSession.Some? {
        HaltSession(activeSession.value);
        HaltingFacts();
        if world.interrupts == Some(AtClose) {
          return Some(AtClose);
        }
        activeSession := None;
      }
      if trialStarted {
        HaltTrial(world.abortReaches);
        if world.interrupts == Some(AtAbort) {
          return Some(AtAbort);
        }
        trialStarted := false;
      }
    }

    /** The calls of _safe_stop up to the record: the arm, then the server. */
    method HaltAll(world: World) returns (cut: Option<Cut>)
      requires Failing()
      modifies this`trace, this`activeSession, this`trialStarted, executor, server
      ensures Halted()
      ensures trace == old(trace) + Halt(world.interrupts, old(activeSession).Some?, old(trialStarted))
      ensures executor.policy == old(executor.policy) && OnlyHeld(old(executor.commands), executor.commands)
      ensures cut ==
        if world.interrupts == Some(AtRecord) then None
        else CutOf(world.interrupts, old(activeSession).Some?, old(trialStarted))
      ensures cut.None? ==> activeSession.None? && !trialStarted
      ensures Aborted() <==> old(trialStarted) && !CutsEarly(world.interrupts, old(activeSession).Some?)
      ensures Aborted() && world.abortReaches ==> FateOf(server.events, |origin.events|).reached
      ensures Aborted() ==> Live().None? && (AbortWorked() ==> server.sys.rt.trial.None?)
      ensures !Aborted() ==> TrialKnown() && trialStarted == old(trialStarted) && server.SameTrial(old(server.Here()))
    {
      hide Failing, Halting, Halted, AbortWorked, TrialKnown, Aborted, OnlyHeld, Halt, Farewell, CutOf, CutsEarly,
        Sound, Phase, Stopped, server.Valid;
      StopFirst(trace, world.interrupts, activeSession.Some?, trialStarted);
      HaltArm();
      HaltingFacts();
      if world.interrupts == Some(AtStop) {
        cut := Some(AtStop);
      } else {
        cut := HaltServer(world);
      }
    }

    method EnterSafeStop()
      modifies this`state
      ensures state == if old(state) in {PipelineState.PipelineFailed, PipelineState.Completed} then old(state)
                       else PipelineState.SafeStop
    {
      EveryStateMayStop(state);
      if state != PipelineState.SafeStop && state != PipelineState.PipelineFailed && state != PipelineState.Completed {
        assert PipelineState.SafeStop in PipelineTargets(state);
        state := PipelineState.SafeStop;
      }
    }

    method LeaveSafeStop()
      modifies this`state
      ensures state == if old(state) == PipelineState.SafeStop then PipelineState.PipelineFailed else old(state)
    {
      if state == PipelineState.SafeStop {
        assert PipelineState.PipelineFailed in PipelineTargets(state);
        state := PipelineState.PipelineFailed;
      }
    }

    /** The calls of _safe_stop and its changes of state, in order. */
    method StopAll(code: ErrorCode, world: World) returns (cut: Option<Cut>)
      requires Running()
      modifies this`trace, this`state, this`trialStarted, this`activeSession, executor, audit, server
      ensures Sound() && Phase() == Traces.Halted && Stopped()
      ensures trace == old(trace) + Halt(world.interrupts, old(activeSession).Some?, old(trialStarted))
      ensures executor.policy == old(executor.policy) && OnlyHeld(old(executor.commands), executor.commands)
      ensures cut == CutOf(world.interrupts, old(activeSession).Some?, old(trialStarted))
      ensures cut in {None, Some(AtRecord)} ==> activeSession.None? && !trialStarted
      ensures state == if old(state) == PipelineState.Completed then PipelineState.Completed
                       else if cut in {None, Some(AtRecord)} then PipelineState.PipelineFailed
                           else PipelineState.SafeStop
      // cut short before it, nothing is put on record
      ensures cut !in {None, Some(AtRecord)} ==> audit.runs == old(audit.runs)
      ensures Aborted() <==> old(trialStarted) && !CutsEarly(world.interrupts, old(activeSession).Some?)
      ensures Aborted() && world.abortReaches ==> FateOf(server.events, |origin.events|).reached
      ensures Aborted() ==> Live().None? && (AbortWorked() ==> server.sys.rt.trial.None?)
      ensures !Aborted() ==> TrialKnown() && server.SameTrial(old(server.Here()))
    {
      hide Running, Failing, Halting, Halted, Sound, Phase, AbortWorked, TrialKnown, Stopped, Aborted, OnlyHeld, Halt,
        CutsEarly, CutOf, server.Valid, server.SameTrial, Farewell, Live;
      RecordCut(world.interrupts, activeSession.Some?, trialStarted);
      MayFail();
      EnterSafeStop();
      cut := HaltAll(world);
      HaltedFacts();
      if cut.None? {
        LeaveSafeStop();
        HaltRun(code);
        cut := if world.interrupts == Some(AtRecord) then Some(AtRecord) else None;
      }
    }

    /** _safe_stop from any point of a run: the arm first, then the session, then the trial, then the record.
        A KeyboardInterrupt in one of its calls skips the rest; `cut` says where. */
    method SafeStop(code: ErrorCode, world: World) returns (cut: Option<Cut>)
      requires Running()
      modifies this`trace, this`state, this`trialStarted, this`activeSession, executor, audit, server
      ensures Sound() && Phase() == Traces.Halted && Stopped()
      // exactly these calls, and an interrupt of one of them ends it there
      ensures trace == old(trace) + Halt(world.interrupts, old(activeSession).Some?, old(trialStarted))
      ensures cut == CutOf(world.interrupts, old(activeSession).Some?, old(trialStarted))
      // the arm is told nothing but to hold
      ensures executor.policy == old(executor.policy) && OnlyHeld(old(executor.commands), executor.commands)
      ensures cut in {None, Some(AtRecord)} ==> activeSession.None? && !trialStarted
      ensures cut !in {None, Some(AtRecord)} ==> audit.runs == old(audit.runs)
      ensures state == if old(state) == PipelineState.Completed then PipelineState.Completed
                       else if cut in {None, Some(AtRecord)} then PipelineState.PipelineFailed
                           else PipelineState.SafeStop
      // an abort is sent exactly when the run has begun a trial and no interrupt cuts in before it
      ensures Aborted() <==> old(trialStarted) && !CutsEarly(world.interrupts, old(activeSession).Some?)
      ensures Aborted() && world.abortReaches ==> FateOf(server.events, |origin.events|).reached
      ensures Aborted() ==> Live().None? && (AbortWorked() ==> Clean())
      ensures !Aborted() ==> TrialKnown()
      // undisturbed, the server ends clean exactly when it had no trial or the abort was sent
      ensures !Disturbed(server.events, |old(server.events)|) && (Aborted() ==> AbortWorked()) ==>
        (Clean() <==> old(server.sys).rt.trial.None? || Aborted())
    {
      hide Running, Sound, Phase, AbortWorked, TrialKnown, Disturbed, Clean, Stopped, Aborted, OnlyHeld, Halt, CutOf,
        CutsEarly, server.Valid;
      cut := StopAll(code, world);
      SoundServer();
      CleanMeans();
      if server.sys.rt.trial.None? {
        CleanServer();
      }
    }

    lemma SoundServer()
      requires Sound()
      ensures server.Valid()
    {
    }

    // ----- run -----

    /** A new orchestrator, on a server in any state. */
    ghost predicate Idle()
      reads this, executor, executor.gate, audit, server
    {
      && PartsValid()
      && state == Created && activeSession.None? && !trialStarted
      && trace == [] && sessions == map[] && proofs == map[]
    }

    ghost predicate EarlierNow()
      reads this`earlier, executor, server, checker
    {
      earlier == Earlier(Acts(executor.calls), server.calls, |checker.verdicts|)
    }

    lemma NothingNoted()
      requires trace == [] && proofs == map[] && EarlierNow()
      ensures Noted() && Proven()
    {
      assert Acts(executor.calls) == earlier.arm + [];
      assert server.calls == earlier.server + [];
    }

    lemma NothingRun()
      ensures RunAgrees(server.sys, [], map[]) && RunJustified(plan, executor.gate.profiles, [], map[])
      ensures NoAbort(server.events, |server.events|)
    {
    }

    lemma FirstStep(runs: map<TrialId, RunLog>)
      requires Idle() && plan.runId !in runs && audit.active == Some(ActiveRun(plan.runId, plan.Skills(), 0, false))
      requires plan.runId in audit.runs && audit.runs[plan.runId].stages == []
      requires origin == server.Here() && EarlierNow()
      ensures AtStage(0)
    {
      NothingNoted();
      NothingRun();
      hide Noted, Proven, Acts, server.Valid, executor.Fit, Traces.RobotActs, Traces.ServerActs, RunAgrees,
        RunJustified, NoAbort, EarlierNow;
    }

    /** The steps inside the try block. */
    method RunStages() returns (r: Outcome<()>)
      requires AtStage(0) && |plan.stages| > 0
      modifies this`trace, this`sessions, this`proofs, this`state, this`trialStarted, this`activeSession,
        executor, executor.gate, audit, server, checker
      ensures r.Raised? ==> Running()
      ensures r.Returned? ==>
        && Sound() && Phase() == Traces.Between && state == PipelineState.Completed
        && activeSession.None? && !trialStarted && !Aborted() && TrialKnown() && Live().None? && Clean() && Finished()
    {
      hide Running, Phase, Current, TrialKnown, Sound, Clean, Finished, Aborted;
      var _ :- Transition(Preflight);
      var _ :- MayRaise();
      var _ :- CallPreflight();
      var index: nat := 0;
      while index < |plan.stages|
        invariant index <= |plan.stages| && AtStage(index) && (index > 0 ==> Live().None?)
      {
        var _ :- RunStage(index);
        index := index + 1;
      }
      var _ :- Transition(PipelineState.Completed);
      r := CallCompleteRun();
    }

    /** Every stage of the plan is committed and the run's last word is COMPLETED. */
    ghost predicate Finished()
      reads audit
    {
      && plan.runId in audit.runs && audit.runs[plan.runId].Says(RunCompleted)
      && audit.runs[plan.runId].Committed(plan.Skills(), |plan.stages|)
      && |Stages()| == |plan.stages|
    }

    method CallPreflight() returns (r: Outcome<()>)
      requires In(Traces.Between)
      modifies executor
      ensures In(Traces.Between)
    {
      hide Traces.Follow, Noted, Proven, RunAgrees, RunJustified, server.Valid, executor.Valid, audit.Valid,
        executor.InBox, executor.Kept;
      r := executor.Preflight();
    }

    method CallCompleteRun() returns (r: Outcome<()>)
      requires In(Traces.Between) && !trialStarted && Live().None?
      requires audit.active.value.completed == |plan.stages| == |Stages()|
      modifies audit
      ensures r.Raised? ==> Running()
      ensures r.Returned? ==>
        Sound() && Phase() == Traces.Between && !Aborted() && TrialKnown() && Finished() && Clean()
    {
      hide Traces.Follow, Noted, Proven, RunAgrees, RunJustified, server.Valid, executor.Fit, audit.Valid;
      r := audit.Complete();
      Traces.NoAbortYet(trace);
      NoTrialLeft();
      if r.Returned? {
        CleanServer();
      }
    }

    lemma NoTrialLeft()
      requires PartsValid() && TrialKnown() && Live().None? && !trialStarted
      ensures server.Valid() && server.sys.rt.trial.None?
    {
    }

    /** The try block and its handlers. */
    method RunOrStop(world: World) returns (r: Outcome<()>, cut: Option<Cut>, ghost failed: Breakdown)
      requires AtStage(0) && |plan.stages| > 0
      modifies this`trace, this`sessions, this`proofs, this`state, this`trialStarted, this`activeSession,
        executor, executor.gate, audit, server, checker
      ensures Sound()
      ensures r.Returned? ==>
        && cut.None? && state == PipelineState.Completed && activeSession.None? && !trialStarted
        && !Aborted() && TrialKnown() && Live().None? && Clean() && Finished()
      ensures r.Raised? ==>
        && trace != [] && Phase() == Traces.Halted && Stopped()
        && trace == failed.before + Halt(world.interrupts, failed.open, failed.begun)
        && cut == CutOf(world.interrupts, failed.open, failed.begun)
        && (cut in {None, Some(AtRecord)} ==> activeSession.None? && !trialStarted)
        && (Aborted() <==> failed.begun && !CutsEarly(world.interrupts, failed.open))
        && (Aborted() && world.abortReaches ==> FateOf(server.events, |origin.events|).reached)
        && (Aborted() ==> Live().None? && (AbortWorked() ==> Clean()))
        && (!Aborted() ==> TrialKnown() && (Live().None? && !trialStarted ==> Clean()))
    {
      hide CutOf, CutsEarly, Running, Sound, Clean, AbortWorked, Aborted, Stopped, Finished, FateOf, TrialKnown, Phase;
      cut, failed := None, Breakdown([], false, false);
      r := RunStages();
      if r.Raised? {
        failed := Breakdown(trace, activeSession.Some?, trialStarted);
        cut := SafeStop(r.code, world);
        HaltIsSomething(failed.before, world.interrupts, failed.open, failed.begun);
        hide Halt;
        if Live().None? && !trialStarted && !Aborted() {
          CleanNow();
        }
      }
    }

    /** A whole run, on a server in any state. `cut` is where the operator's interrupt ended _safe_stop, if it did. */
    method Run(world: World) returns (r: Outcome<()>, cut: Option<Cut>, ghost failed: Breakdown)
      requires Idle()
      modifies this, executor, executor.gate, audit, server, checker
      // refused or not begun: neither the robot nor the server hears of it
      ensures trace == [] && r.Raised? ==> executor.commands == old(executor.commands) && server.sys == old(server.sys)
      // begun: whatever happened, the logs agree, committed stages are justified, and the calls came in order
      ensures trace != [] ==> Sound()
      ensures r.Returned? ==>
        && state == PipelineState.Completed && Finished() && Clean() && !Aborted()
        && activeSession.None? && !trialStarted && old(server.sys).rt.trial.None?
      ensures r.Raised? && trace != [] ==> Phase() == Traces.Halted && Stopped()
      // the calls after a failure, and where an interrupt ends them
      ensures r.Raised? && trace != [] ==>
        && trace == failed.before + Halt(world.interrupts, failed.open, failed.begun)
        && cut == CutOf(world.interrupts, failed.open, failed.begun)
      ensures r.Returned? || trace == [] ==> cut.None?
      ensures cut in {None, Some(AtRecord)} ==> activeSession.None? && !trialStarted
      // where no trial was live, a run that is not cut short and whose abort, if it needs one, reaches the server
      // leaves it clean or down; it is down only if something took it down
      ensures old(server.sys).rt.trial.None? && world == World(None, true) ==> Clean() || !Up(server.sys.rt)
      ensures Healthy(server.start, server.events) ==> Up(server.sys.rt)
      // and clean all the same if there was nothing to abort or the abort landed
      ensures old(server.sys).rt.trial.None? && !trialStarted && !Aborted() ==> Clean()
      ensures Aborted() ==> old(server.sys).rt.trial.None? && (AbortWorked() ==> Clean())
      // an abort is sent exactly when the run had begun a trial and no interrupt came before it
      ensures r.Raised? && trace != [] ==>
        (Aborted() <==> failed.begun && !CutsEarly(world.interrupts, failed.open))
      // where one was live, the run raises, begins no trial and no session, and does not end the one there
      ensures old(server.sys).rt.trial.Some? ==>
        && r.Raised? && !Aborted() && Keeps(old(server.sys), server.sys)
        && (server.sys.rt.trial == old(server.sys).rt.trial
            || (!Up(server.sys.rt) && Disturbed(server.events, |old(server.events)|)))
      // the exact condition: undisturbed, uncut and with an abort that works if it is sent,
      // the run ends clean if and only if no trial was live when it began
      ensures
        && !Disturbed(server.events, |old(server.events)|) && !CutsEarly(world.interrupts, failed.open)
        && (Aborted() ==> AbortWorked())
        ==> (Clean() <==> old(server.sys).rt.trial.None?)
      ensures origin == old(server.Here())
    {
      hide CutOf, CutsEarly, Halt, Running, Sound, PartsValid, Clean, AbortWorked, Aborted, Stopped, Finished, Keeps,
        Disturbed, OnlyHeld, Healthy, FateOf, Acts, TrialKnown, server.Valid, Phase, EarlierNow, Up;
      NotAborted();
      cut, failed := None, Breakdown([], false, false);
      origin := server.Here();
      earlier := Earlier(Acts(executor.calls), server.calls, |checker.verdicts|);
      CleanMeans();
      KeepsSelf(server.sys);
      IdleServer();
      ServerFacts();
      if server.sys.rt.trial.None? {
        CleanStart();
      }
      var begun := BeginRun();
      if begun.Raised? {
        return begun, cut, failed;
      }
      r, cut, failed := RunOrStop(world);
      CutFacts(world.interrupts, failed.open, failed.begun);
      TrialFacts();
      CleanMeans();
      SoundServer();
      ServerFacts();
    }

    lemma NotAborted()
      ensures trace == [] ==> !Aborted()
    {
    }

    /** What is known of the trial, spelt out. */
    lemma TrialFacts()
      ensures TrialKnown() && Live().Some? ==>
        && !trialStarted && Keeps(origin.sys, server.sys)
        && (server.sys.rt.trial == Live() || (!Up(server.sys.rt) && Disturbed(server.events, |origin.events|)))
    {
    }

    lemma ServerFacts()
      requires server.Valid()
      ensures Healthy(server.start, server.events) ==> Up(server.sys.rt)
      ensures FateOf(server.events, |origin.events|).reached && Up(server.sys.rt) ==> AbortWorked()
    {
      hide ServerInvariant.Inv, Quiescent, Healthy;
      if Healthy(server.start, server.events) {
        HealthyIsUp(server.start, server.events);
      }
    }

    lemma IdleServer()
      requires Idle()
      ensures server.Valid()
    {
    }

    lemma CleanStart()
      requires Idle() && server.sys.rt.trial.None?
      ensures Clean()
    {
      CleanServer();
    }

    /** A run that has begun no trial, or ended it, where none was live before. */
    lemma CleanNow()
      requires Sound() && TrialKnown() && Live().None? && !trialStarted
      ensures Clean()
    {
      CleanServer();
    }

    /** The operator's approval, then the run directory. */
    method BeginRun() returns (r: Outcome<()>)
      requires Idle() && origin == server.Here() && EarlierNow()
      modifies audit
      ensures r.Returned? ==> AtStage(0) && |plan.stages| > 0
    {
      var approved: bool := *;
      if !approved {
        return Raised(ApprovalRequired);
      }
      ghost var runs := audit.runs;
      ghost var made, written;
      r, made, written := audit.Begin(plan.runId, plan.Skills());
      if r.Returned? {
        FirstStep(runs);
      }
    }
  }

  // ----- what a committed stage means -----

  /** Somewhere in the samples a full window held still at one template. */
  ghost predicate HeldStill(p: Profile, history: seq<Sample>) {
    && p.Valid() && AllSeven(history)
    && exists lo, k :: StillWindow(p, history, lo, k)
  }

  predicate StillWindow(p: Profile, history: seq<Sample>, lo: int, k: int) {
    && p.Valid() && AllSeven(history) && 0 <= lo && lo + p.windowSamples <= |history| && 0 <= k < |p.targets|
    && HoldsStillAt(p, history[lo..lo + p.windowSamples], k)
  }

  lemma EarnedHeldStill(p: Profile, history: seq<Sample>, v: Evidence, r: GateResult)
    requires EarnedBy(p, history, v, r)
    ensures HeldStill(p, history)
  {
    hide WindowResult, HoldsStillAt;
    var lo :| v.keptFrom <= lo && VerdictAt(p, history, lo, r);
    var window := history[lo..lo + p.windowSamples];
    PassBoundsEverySample(p, window);
    var k :| 0 <= k < |p.targets| && HoldsStillAt(p, window, k);
    assert StillWindow(p, history, lo, k);
  }

  /** A stage that the edge calls committed really is: the arm was seen at rest, the checker passed where it is
      required, the published rows fit the plan, and the server committed the trial with exactly the edge's rows. */
  lemma CommittedStageIsReal(s: ServerSystem.System, plan: PipelinePlan, profiles: map<Skill, Profile>,
                             stages: seq<StageLog>, sessions: map<nat, SessionId>,
                             proofs: map<nat, Proof>, shown: seq<Seen>, verdicts: seq<Verdict>, from: nat, i: nat)
    requires RunAgrees(s, stages, sessions) && RunJustified(plan, profiles, stages, proofs)
    requires Witnessed(plan, proofs, shown, verdicts, from)
    requires i < |stages| && stages[i].record.Some?
    ensures stages[i].skill == plan.stages[i].skill && stages[i].skill in profiles
    ensures i in proofs && HeldStill(profiles[stages[i].skill], proofs[i].history)
    // in samples that the gate was shown in this very stage
    ensures WasShown(shown, Seen(stages[i].skill, proofs[i].history))
    // the verdict on record is one that the checker gave for this skill since the run began
    ensures plan.stages[i].checkerRequired ==>
      Said(verdicts, from, Verdict(stages[i].skill, stages[i].record.value.checker))
    ensures stages[i].record.value.checker.passed
    ensures stages[i].record.value.evidence.checker ==
      if plan.stages[i].checkerRequired then EvidencePassed else NotRequired
    ensures profiles[stages[i].skill].minPublishStep <= TotalOf(stages[i].rows) <= plan.stages[i].actionSteps
    ensures i in sessions && sessions[i] in s.rt.leases
    ensures var rows := ServerInvariant.SessionRows(s.rt, sessions[i]);
      && |rows| == |stages[i].rows| && (forall k :: 0 <= k < |rows| ==> SameRequest(stages[i].rows[k], rows[k]))
      && (var writes := s.rt.audit.WritesOf(plan.TrialOf(i));
          |writes| == 2 && writes[1].status == TrialAudit.Committed && writes[1].requestCount == |rows|)
  {
    hide Profile.Valid;
    Agreed(s, stages, sessions, i);
    AtMostOneExtraRow(s, stages[i], sessions[i]);
    EarnedHeldStill(profiles[stages[i].skill], proofs[i].history, proofs[i].evidence, stages[i].record.value.gate);
  }

  /** What the arm was told, against the trace of a run: `earlier` are the arm's calls before it. Every pose that a
      policy asked for was sent by a publish, and a publish of this run comes straight after its begin_stage or another
      publish of the same stage. */
  lemma PosesComeFromStages(calls: seq<RobotCall>, commands: seq<Command>, policy: nat, earlier: seq<Traces.Act>,
                            trace: seq<Traces.Act>, i: nat) returns (k: nat)
    requires Booked(calls, commands, policy) && Acts(calls) == earlier + Traces.RobotActs(trace)
    requires Traces.Follow(trace).Some? && i < policy
    ensures k < |calls| && calls[k].act.PublishChunk? && calls[k].policy <= i < PolicyBy(calls, policy, k + 1)
    ensures k >= |earlier| ==> k > |earlier| && Traces.OpensStage(calls[k - 1].act)
  {
    k := PolicyIsPublished(calls, commands, policy, i);
    Traces.ArmOrder(trace);
    if k >= |earlier| {
      var arm := Traces.RobotActs(trace);
      assert Acts(calls)[k] == arm[k - |earlier|];
      assert arm[k - |earlier| - 1] == Acts(calls)[k - 1];
    }
  }

  /** Once a failed run has been stopped, the arm's last call is that stop: since then it was sent one pose over and
      over, and nothing of a policy. */
  lemma {:induction false} FailureHoldsTheArm(calls: seq<RobotCall>, commands: seq<Command>, policy: nat,
                                              earlier: seq<Traces.Act>, trace: seq<Traces.Act>)
    requires Booked(calls, commands, policy) && Acts(calls) == earlier + Traces.RobotActs(trace)
    requires Traces.Follow(trace) == Some(Traces.Halted)
    ensures calls != []
    ensures var last := calls[|calls| - 1];
      && last.act.StopArm? && last.commands <= |commands| && Held(commands[last.commands..]) && last.policy == policy
  {
    Traces.ArmOrder(trace);
    var arm := Traces.RobotActs(trace);
    assert Acts(calls)[|calls| - 1] == arm[|arm| - 1];
  }

  /** In every run, whatever failed: the edge's rows of a stage are the first rows of the server's log of its session,
      which has at most one more. */
  lemma EdgeLogIsPrefix(s: ServerSystem.System, stages: seq<StageLog>, sessions: map<nat, SessionId>, i: nat)
    requires RunAgrees(s, stages, sessions) && i < |stages|
    ensures i !in sessions ==> stages[i].rows == []
    ensures i in sessions ==> sessions[i] in s.rt.leases
    ensures i in sessions ==>
      var rows := ServerInvariant.SessionRows(s.rt, sessions[i]);
      && |stages[i].rows| <= |rows| <= |stages[i].rows| + 1
      && forall k :: 0 <= k < |stages[i].rows| ==> SameRequest(stages[i].rows[k], rows[k])
  {
    Agreed(s, stages, sessions, i);
  }

  // ----- logs that go on -----

  lemma KeepsSelf(s: ServerSystem.System)
    ensures Keeps(s, s)
  {
  }

  lemma StillNoAbort(events: seq<ServerSystem.Event>, more: seq<ServerSystem.Event>, from: nat)
    requires NoAbort(events, from) && GoesOn(events, more)
    ensures NoAbort(more, from)
  {
  }

  lemma StillDisturbed(events: seq<ServerSystem.Event>, more: seq<ServerSystem.Event>, from: nat)
    requires events <= more && from <= |events|
    ensures Disturbed(events, from) || Disturbed(more, |events|) ==> Disturbed(more, from)
  {
    if Disturbed(events, from) {
      var i :| from <= i < |events| && Disturbs(events[i]);
      assert Disturbs(more[i]);
    }
  }

  /** The abort of a run is in the last part of its log. */
  lemma FateIsLate(events: seq<ServerSystem.Event>, more: seq<ServerSystem.Event>, from: nat)
    requires NoAbort(events, from) && events <= more && from <= |events|
    ensures FateOf(more, from) == FateOf(more, |events|)
  {
    forall i | from <= i < |more| ensures IsAbort(more[i]) ==> |events| <= i {
      assert i < |events| ==> more[i] == events[i];
    }
  }

  lemma NoRowsAccounted()
    ensures Accounted([]) && TotalOf([]) == 0
  {
  }

  lemma ChunksAddUp(sequence: nat, chunks: nat, rows: int)
    requires sequence < chunks
    ensures sequence * rows + rows == (sequence + 1) * rows
    ensures rows >= 0 ==> (sequence + 1) * rows <= chunks * rows
  {
    if rows >= 0 {
      assert (chunks - sequence - 1) * rows >= 0;
      assert (chunks - sequence - 1) * rows == chunks * rows - (sequence + 1) * rows;
    }
  }

  /** open-session, whether it opened a session or not. */
  lemma OpeningAgrees(s: ServerSystem.System, n: ServerSystem.System, stages: seq<StageLog>,
                      sessions: map<nat, SessionId>, index: nat, made: Option<SessionId>)
    requires RunAgrees(s, stages, sessions) && Grown(s, n, None, 0) && index < |stages| && index !in sessions
    requires s.rt.trial in {None, Some(stages[index].trial)} && NoLeaseOf(s, stages[index].trial)
    requires made.Some? ==> made.value !in s.rt.leases && SessionOpened(s, n, made.value)
    ensures RunAgrees(n, stages, if made.Some? then sessions[index := made.value] else sessions)
    ensures made.Some? ==> OnlyLease(n, stages[index].trial, made.value) && Issued(n, made.value, 0)
    ensures made.Some? ==> Some(n.rt.leases[made.value].skill) == s.rt.activeSkill
  {
    if made.Some? {
      FirstLease(s, n, stages[index].trial, made.value);
      hide RunAgrees, Grown, NoLeaseOf, OnlyLease;
      AddSession(s, n, stages, sessions, index, made.value);
    } else {
      hide RunAgrees, Grown, NoLeaseOf;
      RunAgreementLasts(s, n, stages, sessions);
    }
  }

  lemma GrantIs(s: ServerSystem.System, grant: Grant)
    requires IsLease(s, grant)
    ensures grant.session in s.rt.leases && s.rt.leases[grant.session].skill == grant.skill
  {
  }

  lemma NoSessionYet(s: ServerSystem.System, stages: seq<StageLog>, sessions: map<nat, SessionId>)
    requires RunAgrees(s, stages, sessions)
    ensures |stages| !in sessions
  {
  }

  lemma Agreed(s: ServerSystem.System, stages: seq<StageLog>, sessions: map<nat, SessionId>, i: nat)
    requires RunAgrees(s, stages, sessions) && i < |stages|
    ensures StageAgrees(s, stages[i], SessionOf(sessions, i))
  {
  }

  lemma IssuedLasts(s: ServerSystem.System, n: ServerSystem.System, id: SessionId)
    requires Grown(s, n, None, 0)
    ensures forall k: nat :: Issued(s, id, k) ==> Issued(n, id, k)
  {
    hide ServerInvariant.Inv, Issued;
  }

  lemma IssuedNext(s: ServerSystem.System, n: ServerSystem.System, id: SessionId, k: nat)
    requires Issued(s, id, k) && Grown(s, n, Some(id), k)
    ensures Issued(n, id, k + 1)
  {
    assert Issued(s, id, k + 1);
    hide ServerInvariant.Inv, Issued;
  }

  lemma GrantLasts(s: ServerSystem.System, n: ServerSystem.System, grant: Grant, k: nat)
    requires IsLease(s, grant) && Grown(s, n, Some(grant.session), k)
    ensures IsLease(n, grant)
  {
    hide ServerInvariant.Inv, Issued;
  }
}
