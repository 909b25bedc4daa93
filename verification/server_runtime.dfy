/** PolicyRuntime (server/runtime.py) as the object it is. Each method is what one thread does while it holds
    `_condition`, and is proved to take the runtime where RuntimeSpec says; ServerSystem says when the steps may
    interleave. */
module PolicyRuntimes {
  import opened CommonTypes
  import opened States
  import TrialAudit
  import opened RuntimeSpec
  import opened TrialAuditStores
  import opened CompositeBackends
  import S = ServerSystem

  /** One thread alone in the server, holding the execution lock. */
  function Alone(r: Runtime, t: ThreadId, pc: S.Pc): S.System {
    S.System(r, Some(t), map[t := pc], [])
  }

  /** The run that leads from `start` to `now`. */
  predicate Leads(start: S.System, events: seq<S.Event>, now: S.System) {
    S.Run(start, events) == Some(now)
  }

  lemma OneMore(start: S.System, events: seq<S.Event>, now: S.System, e: S.Event)
    requires Leads(start, events, now) && S.Enabled(now, e)
    ensures Leads(start, events + [e], S.Apply(now, e))
  {
    assert (events + [e])[..|events|] == events;
  }

  // ----- the steps of an infer that is alone -----

  lemma OneThread(t: ThreadId)
    ensures forall x: S.Pc, y: S.Pc :: map[t := x][t := y] == map[t := y]
  {
  }

  lemma EnterAlone(r: Runtime, t: ThreadId, req: Request, expired: bool)
    ensures var (q, admitted) := Admit(r, req, expired);
      Leads(Alone(r, t, S.InferLocked(req)), [S.InferEnter(t, expired)],
            Alone(q, t, if admitted.Returned? then S.InferAdmitted(req) else S.Releasing))
  {
    OneThread(t);
    hide Admit;
    var start := Alone(r, t, S.InferLocked(req));
    assert Leads(start, [], start);
    OneMore(start, [], start, S.InferEnter(t, expired));
    assert [] + [S.InferEnter(t, expired)] == [S.InferEnter(t, expired)];
  }

  lemma BackendAlone(start: S.System, events: seq<S.Event>, r: Runtime, t: ThreadId, req: Request, answer: Inference)
    returns (more: seq<S.Event>)
    requires Leads(start, events, Alone(r, t, S.InferAdmitted(req)))
    ensures var (b, result) := BackendInfer(r.backend, answer);
      Leads(start, more, Alone(r.(backend := b), t,
        if result.Returned? then S.InferComputed(req, result.value.0, result.value.1)
        else S.InferBroken(req, result.code)))
  {
    OneThread(t);
    hide BackendInfer;
    OneMore(start, events, Alone(r, t, S.InferAdmitted(req)), S.InferBackend(t, answer));
    more := events + [S.InferBackend(t, answer)];
  }

  lemma RecordAlone(start: S.System, events: seq<S.Event>, r: Runtime, t: ThreadId, req: Request,
                    value: (Digest, Actions), io: TrialAudit.RecordIo) returns (more: seq<S.Event>)
    requires Leads(start, events, Alone(r, t, S.InferComputed(req, value.0, value.1)))
    ensures var row := RowFor(req, value.0, value.1);
      var (q, recorded) := RecordRow(r, row, io);
      Leads(start, more, Alone(q, t,
        if recorded.Returned? then S.InferRecorded(req, row, value.1) else S.InferBroken(req, recorded.code)))
  {
    OneThread(t);
    hide RecordRow, RowFor;
    OneMore(start, events, Alone(r, t, S.InferComputed(req, value.0, value.1)), S.InferRecord(t, io));
    more := events + [S.InferRecord(t, io)];
  }

  lemma RespondAlone(start: S.System, events: seq<S.Event>, r: Runtime, t: ThreadId, req: Request, row: Row,
                     actions: Actions) returns (more: seq<S.Event>)
    requires Leads(start, events, Alone(r, t, S.InferRecorded(req, row, actions)))
    ensures var (q, answered) := Respond(r, req.session);
      Leads(start, more, Alone(q, t, S.InferLeaving(req)).(
        responses := if answered.Returned? then [Reply(row, actions)] else []))
  {
    OneThread(t);
    hide Respond, Reply;
    assert [] + [Reply(row, actions)] == [Reply(row, actions)];
    OneMore(start, events, Alone(r, t, S.InferRecorded(req, row, actions)), S.InferRespond(t));
    more := events + [S.InferRespond(t)];
  }

  lemma FailAlone(start: S.System, events: seq<S.Event>, r: Runtime, t: ThreadId, req: Request, code: ErrorCode)
    returns (more: seq<S.Event>)
    requires Leads(start, events, Alone(r, t, S.InferBroken(req, code)))
    ensures Leads(start, more, Alone(Fail(r, code), t, S.InferLeaving(req)))
  {
    OneThread(t);
    hide Fail;
    OneMore(start, events, Alone(r, t, S.InferBroken(req, code)), S.FailStep(t));
    more := events + [S.FailStep(t)];
  }

  lemma LeaveAlone(start: S.System, events: seq<S.Event>, r: Runtime, t: ThreadId, req: Request,
                   responses: seq<Response>) returns (more: seq<S.Event>)
    requires Leads(start, events, Alone(r, t, S.InferLeaving(req)).(responses := responses))
    ensures Leads(start, more, S.System(Leave(r), None, map[], responses))
  {
    OneThread(t);
    OneMore(start, events, Alone(r, t, S.InferLeaving(req)).(responses := responses), S.InferLeave(t));
    more := LetGo(start, events + [S.InferLeave(t)], Leave(r), t, responses);
  }

  lemma LetGo(start: S.System, events: seq<S.Event>, r: Runtime, t: ThreadId, responses: seq<Response>)
    returns (more: seq<S.Event>)
    requires Leads(start, events, Alone(r, t, S.Releasing).(responses := responses))
    ensures Leads(start, more, S.System(r, None, map[], responses))
  {
    OneMore(start, events, Alone(r, t, S.Releasing).(responses := responses), S.Release(t));
    assert map[t := S.Releasing] - {t} == map[];
    more := events + [S.Release(t)];
  }

  lemma FailInSteps(r: Runtime, code: ErrorCode)
    ensures var q := Invalidate(r.(lastError := Some(code)), SessionState.Aborted);
      && q.state == r.state
      && Fail(r, code) == if r.state == Failed || r.state == Stopping then q else Move(q, Failed).0
  {
  }

  class SessionLease {
    const id: SessionId
    const skill: Skill
    const generation: nat
    const trial: TrialId
    var token: string
    var nextSequence: nat
    var status: SessionState

    constructor (id: SessionId, token: string, skill: Skill, generation: nat, trial: TrialId)
      ensures this.id == id && View() == Lease(token, skill, generation, trial, 0, Active)
    {
      this.id, this.token, this.skill, this.generation, this.trial := id, token, skill, generation, trial;
      nextSequence, status := 0, Active;
    }

    function View(): Lease
      reads this
    {
      Lease(token, skill, generation, trial, nextSequence, status)
    }
  }

  class PolicyRuntime {
    const backend: CompositeBackend
    const audit: TrialAuditStore
    var state: RuntimeState
    var activeSkill: Option<Skill>
    var generation: nat
    var session: SessionLease?
    var trial: Option<TrialId>
    var rootSeed: Option<int>
    var inFlight: int
    var lastError: Option<ErrorCode>

    /** Every lease ever made. */
    ghost var leases: map<SessionId, SessionLease>

    ghost predicate Valid()
      reads this`leases, this`session, leases.Values
    {
      && (forall id :: id in leases ==> leases[id].id == id)
      && (session != null ==> session.id in leases && leases[session.id] == session)
    }

    ghost function LeaseViews(): map<SessionId, Lease>
      reads this`leases, leases.Values
    {
      map id | id in leases :: leases[id].View()
    }

    ghost function View(): Runtime
      reads this, leases.Values, audit, backend
    {
      Runtime(state, activeSkill, generation, if session == null then None else Some(session.id), LeaseViews(),
              trial, rootSeed, inFlight, lastError, audit.View(), backend.View())
    }

    constructor (backend: CompositeBackend, audit: TrialAuditStore)
      requires audit.View() == TrialAudit.Store(None, audit.directories, map[], map[], map[], map[])
      ensures Valid() && View() == RuntimeSpec.Fresh(audit.directories, backend.View())
      ensures this.backend == backend && this.audit == audit
    {
      this.backend, this.audit := backend, audit;
      state, activeSkill, generation, session := Starting, None, 0, null;
      trial, rootSeed, inFlight, lastError := None, None, 0, None;
      leases := map[];
    }

    // ----- private helpers -----

    method Transition(target: RuntimeState) returns (r: Outcome<()>)
      requires Valid()
      modifies this`state
      ensures Valid() && (View(), r) == old(Move(View(), target))
    {
      if target !in RuntimeTargets(state) {
        return Raised(StateRejected);
      }
      state := target;
      return Returned(());
    }

    method InvalidateSession(status: SessionState)
      requires Valid()
      modifies this`session, session
      ensures Valid() && View() == old(Invalidate(View(), status)) && session == null
    {
      if session != null {
        ghost var was := LeaseViews();
        session.status := status;
        session.token := "";
        assert LeaseViews() == was[session.id := was[session.id].(token := "", status := status)];
        session := null;
      }
    }

    method FailRuntime(code: ErrorCode)
      requires Valid()
      modifies this`lastError, this`session, this`state, session
      ensures Valid() && View() == old(Fail(View(), code)) && session == null
    {
      FailInSteps(View(), code);
      hide LeaseViews, Invalidate, Fail;
      lastError := Some(code);
      InvalidateSession(SessionState.Aborted);
      if state != Failed && state != Stopping {
        var moved := Transition(Failed);
      }
    }

    // ----- prepare_skill -----

    method EnterPrepare(skill: Skill) returns (r: PrepareEntry)
      requires Valid()
      modifies this`session, this`state, session
      ensures Valid() && (View(), r) == old(PrepareEnter(View(), skill))
    {
      hide LeaseViews;
      if skill == "" {
        return PrepareRefused(InvalidFieldValue);
      }
      if trial.Some? {
        return PrepareRefused(StateRejected);
      }
      if state == Failed || state == Stopping || state == Loading || state == Switching {
        return PrepareRefused(StateRejected);
      }
      InvalidateSession(SessionState.Aborted);
      if state == Starting {
        var moved := Transition(Loading);
        return MayLoad;
      }
      var draining := Transition(Draining);
      if draining.Raised? {
        return PrepareRefused(draining.code);
      }
      if inFlight != 0 {
        return MustDrain;
      }
      r := FinishDrain();
    }

    method FinishDrain() returns (r: PrepareEntry)
      requires Valid()
      modifies this`state
      ensures Valid() && (View(), r) == old(PrepareDrained(View()))
    {
      var switching := Transition(Switching);
      if switching.Raised? {
        return PrepareRefused(switching.code);
      }
      var loading := Transition(Loading);
      return if loading.Raised? then PrepareRefused(loading.code) else MayLoad;
    }

    method CommitPrepare(skill: Skill) returns (r: Outcome<()>)
      requires Valid()
      modifies this`activeSkill, this`generation, this`state
      ensures Valid() && (View(), r) == old(PrepareCommit(View(), skill))
    {
      activeSkill := Some(skill);
      generation := generation + 1;
      r := Transition(Ready);
    }

    // ----- begin_trial -----

    method BeginTrial(trialId: TrialId, seed: int) returns (r: BeginResult, ghost io: BeginIos)
      requires Valid()
      modifies this`trial, this`rootSeed, audit, backend
      ensures Valid() && (View(), r) == old(RuntimeSpec.BeginTrial(View(), trialId, seed, io))
    {
      io := ResetDone(TrialAudit.BeginWritten);
      if state != Ready {
        return BeginRefused(StateRejected), io;
      }
      if trial.Some? {
        return BeginRefused(StateRejected), io;
      }
      if activeSkill.None? {
        return BeginRefused(ServerFailed), io;
      }
      var reset := backend.ResetPrng(seed);
      if !reset {
        io := ResetRaises(backend.noiseKey);
        return BeginRaised, io;
      }
      var begun, how := audit.Begin(trialId, activeSkill.value, generation, seed);
      io := ResetDone(how);
      if begun.Raised? {
        return BeginRefused(begun.code), io;
      }
      trial := Some(begun.value);
      rootSeed := Some(seed);
      return Begun, io;
    }

    // ----- sessions -----

    /** `id` and `token` are the fresh uuid and secret. */
    method OpenSession(id: SessionId, token: string) returns (r: Outcome<SessionLease>)
      requires Valid() && id !in leases
      modifies this`session, this`leases
      ensures Valid()
      ensures var (q, opening) := old(RuntimeSpec.OpenSession(View(), id, token));
        View() == q && (r.Returned? <==> opening.Returned?)
        && (r.Returned? ==> fresh(r.value) && session == r.value && r.value.View() == opening.value)
        && (r.Raised? ==> r.code == opening.code && leases == old(leases))
    {
      if state != Ready {
        return Raised(StateRejected);
      }
      if trial.None? || activeSkill.None? {
        return Raised(TrialRequired);
      }
      if session != null && session.status == Active {
        return Raised(SessionAlreadyActive);
      }
      ghost var was := LeaseViews();
      var lease := new SessionLease(id, token, activeSkill.value, generation, trial.value);
      session := lease;
      leases := leases[id := lease];
      assert LeaseViews() == was[id := lease.View()];
      return Returned(lease);
    }

    method CloseSession(id: SessionId) returns (r: Outcome<()>)
      requires Valid()
      modifies this`session, session
      ensures Valid() && (View(), r) == old(RuntimeSpec.CloseSession(View(), id))
    {
      if session == null || session.status != Active {
        return Raised(SessionRequired);
      }
      if session.id != id {
        return Raised(SessionInvalid);
      }
      if inFlight != 0 {
        return Raised(InferenceBusy);
      }
      InvalidateSession(Closed);
      return Returned(());
    }

    // ----- infer -----

    /** Validates the request and counts it in; on success `lease` is the object that admitted it. */
    method AdmitRequest(req: Request, expired: bool) returns (r: Outcome<()>, lease: SessionLease?)
      requires Valid()
      modifies this`session, this`inFlight, session
      ensures Valid() && (View(), r) == old(Admit(View(), req, expired))
      ensures r.Returned? ==> lease == session && lease != null && lease.id == req.session && lease.token == req.token
    {
      lease := session;
      if lease == null || lease.status != Active {
        return Raised(SessionRequired), lease;
      }
      if expired {
        InvalidateSession(Expired);
        return Raised(SessionExpired), lease;
      }
      if req.session != lease.id || req.token != lease.token {
        return Raised(SessionInvalid), lease;
      }
      if req.trial != lease.trial || trial != Some(req.trial) {
        return Raised(TrialMismatch), lease;
      }
      if req.skill != lease.skill || activeSkill != Some(req.skill) {
        return Raised(SkillMismatch), lease;
      }
      if req.generation != lease.generation || req.generation != generation {
        return Raised(GenerationMismatch), lease;
      }
      if req.sequence != lease.nextSequence {
        return Raised(SequenceMismatch), lease;
      }
      if state != Ready {
        return Raised(StateRejected), lease;
      }
      inFlight := inFlight + 1;
      return Returned(()), lease;
    }

    /** Answers under the lease that admitted the request, if it still is the session and active. */
    method Answer(lease: SessionLease) returns (r: Outcome<()>)
      requires Valid() && lease.id in leases && leases[lease.id] == lease
      modifies this`lastError, this`session, this`state, session, lease
      ensures Valid() && (View(), r) == old(Respond(View(), lease.id))
    {
      if session != lease || lease.status != Active {
        FailRuntime(SessionInvalid);
        return Raised(SessionInvalid);
      }
      ghost var was := LeaseViews();
      lease.nextSequence := lease.nextSequence + 1;
      assert LeaseViews() == was[lease.id := was[lease.id].(nextSequence := was[lease.id].nextSequence + 1)];
      return Returned(());
    }

    method CountOut()
      requires Valid()
      modifies this`inFlight
      ensures Valid() && View() == old(Leave(View()))
    {
      inFlight := inFlight - 1;
    }

    /** infer once it has the execution lock, with its sections in the order of the code. Alone in the server it is
        the run `events` of the step semantics: it ends in the same state, answers exactly if the run does, and
        lets go of the lock. */
    method Infer(ghost t: ThreadId, req: Request) returns (r: Outcome<Response>, ghost events: seq<S.Event>)
      requires Valid()
      modifies this`session, this`inFlight, this`lastError, this`state, session, backend, audit
      ensures Valid()
      ensures Leads(old(Alone(View(), t, S.InferLocked(req))), events,
                    S.System(View(), None, map[], if r.Returned? then [r.value] else []))
    {
      ghost var start, was := Alone(View(), t, S.InferLocked(req)), View();
      var expired: bool := *;
      var admitted, lease := AdmitRequest(req, expired);
      events := [S.InferEnter(t, expired)];
      EnterAlone(was, t, req, expired);
      if admitted.Raised? {
        events := LetGo(start, events, View(), t, []);
        return Raised(admitted.code), events;
      }
      r, events := Work(t, req, lease, start, events);
      was := View();
      CountOut();
      events := LeaveAlone(start, events, was, t, req, if r.Returned? then [r.value] else []);
    }

    /** The part of infer between its increment and its decrement of `_in_flight`. */
    method Work(ghost t: ThreadId, req: Request, lease: SessionLease, ghost start: S.System, ghost before: seq<S.Event>)
      returns (r: Outcome<Response>, ghost events: seq<S.Event>)
      requires Valid() && lease == session && lease.id == req.session
      requires Leads(start, before, Alone(View(), t, S.InferAdmitted(req)))
      modifies this`session, this`lastError, this`state, session, backend, audit
      ensures Valid()
      ensures Leads(start, events, Alone(View(), t, S.InferLeaving(req)).(
                      responses := if r.Returned? then [r.value] else []))
    {
      hide BackendInfer, S.Run, Leads;
      ghost var was := View();
      ghost var answer;
      var inferred;
      inferred, answer := backend.Infer();
      events := BackendAlone(start, before, was, t, req, answer);
      if inferred.Raised? {
        events := FailInfer(t, req, inferred.code, start, events);
        return Raised(inferred.code), events;
      }
      r, events := RecordAndAnswer(t, req, lease, inferred.value, start, events);
    }

    /** The row, then the answer under the lease. */
    method RecordAndAnswer(ghost t: ThreadId, req: Request, lease: SessionLease, value: (Digest, Actions),
                           ghost start: S.System, ghost before: seq<S.Event>)
      returns (r: Outcome<Response>, ghost events: seq<S.Event>)
      requires Valid() && lease == session && lease.id == req.session
      requires Leads(start, before, Alone(View(), t, S.InferComputed(req, value.0, value.1)))
      modifies this`session, this`lastError, this`state, session, audit
      ensures Valid()
      ensures Leads(start, events, Alone(View(), t, S.InferLeaving(req)).(
                      responses := if r.Returned? then [r.value] else []))
    {
      hide Respond, TrialAudit.Record, Reply, S.Run, Leads;
      ghost var was := View();
      var row := RowFor(req, value.0, value.1);
      ghost var io;
      var recorded;
      recorded, io := audit.RecordRequest(row);
      events := RecordAlone(start, before, was, t, req, value, io);
      if recorded.Raised? {
        events := FailInfer(t, req, recorded.code, start, events);
        return Raised(recorded.code), events;
      }
      was := View();
      var answered := Answer(lease);
      events := RespondAlone(start, events, was, t, req, row, value.1);
      r := if answered.Returned? then Returned(Reply(row, value.1)) else Raised(answered.code);
    }

    /** A failed inference or record fails the runtime. */
    method FailInfer(ghost t: ThreadId, req: Request, code: ErrorCode, ghost start: S.System,
                     ghost before: seq<S.Event>) returns (ghost events: seq<S.Event>)
      requires Valid() && Leads(start, before, Alone(View(), t, S.InferBroken(req, code)))
      modifies this`lastError, this`session, this`state, session
      ensures Valid() && Leads(start, events, Alone(View(), t, S.InferLeaving(req)))
    {
      hide Fail, S.Run, Leads;
      ghost var was := View();
      FailRuntime(code);
      events := FailAlone(start, before, was, t, req, code);
    }

    // ----- the end of a trial -----

    method EndTrial() returns (r: Outcome<TrialAudit.Manifest>, ghost summaryWritten: bool, ghost manifestWritten: bool)
      requires Valid()
      modifies this`trial, this`rootSeed, this`lastError, this`session, this`state, session, audit
      ensures Valid() && (View(), r) == old(RuntimeSpec.EndTrial(View(), summaryWritten, manifestWritten))
    {
      summaryWritten, manifestWritten := false, false;
      if session != null && session.status == Active {
        return Raised(SessionAlreadyActive), summaryWritten, manifestWritten;
      }
      if trial.None? {
        return Raised(TrialRequired), summaryWritten, manifestWritten;
      }
      r, summaryWritten, manifestWritten := audit.End();
      if r.Raised? {
        FailRuntime(AuditCommitFailed);
      } else {
        trial, rootSeed := None, None;
      }
    }

    /** The critical section of abort. */
    method Abort() returns (r: Outcome<Option<TrialAudit.Manifest>>, ghost written: bool)
      requires Valid()
      modifies this`trial, this`rootSeed, this`lastError, this`session, this`state, session, audit
      ensures Valid() && (View(), r) == old(RuntimeSpec.Abort(View(), written))
    {
      hide LeaseViews;
      InvalidateSession(SessionState.Aborted);
      r, written := audit.Terminate(TrialAudit.TrialStatus.Aborted, None);
      if r.Raised? {
        FailRuntime(AuditCommitFailed);
      } else {
        trial, rootSeed := None, None;
      }
    }

    method MarkTransportAmbiguous(id: SessionId, sequence: nat)
      returns (r: Outcome<Option<TrialAudit.Manifest>>, ghost written: bool)
      requires Valid()
      modifies this`trial, this`rootSeed, this`lastError, this`session, this`state, session, audit
      ensures Valid() && (View(), r) == old(MarkAmbiguous(View(), id, sequence, written))
    {
      hide LeaseViews;
      written := false;
      if session == null || session.id != id {
        return Returned(None), written;
      }
      InvalidateSession(SessionState.Aborted);
      r, written := audit.Terminate(TrialAudit.Ambiguous, Some(sequence));
      if r.Raised? {
        FailRuntime(AuditCommitFailed);
      } else {
        trial, rootSeed := None, None;
        FailRuntime(ServerFailed);
      }
    }

    /** The critical section of close. */
    method Close() returns (ghost written: bool)
      requires Valid()
      modifies this`trial, this`rootSeed, this`session, this`state, session, audit
      ensures Valid() && View() == old(RuntimeSpec.Close(View(), written))
    {
      hide LeaseViews;
      written := false;
      if state != Stopping {
        var moved := Transition(Stopping);
      }
      InvalidateSession(SessionState.Aborted);
      if trial.Some? {
        var ended;
        ended, written := audit.Terminate(TrialAudit.TrialStatus.Aborted, None);
        if ended.Returned? {
          trial, rootSeed := None, None;
        }
      }
    }
  }
}
