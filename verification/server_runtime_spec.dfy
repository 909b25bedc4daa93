/** PolicyRuntime (server/runtime.py) on values: one function per critical section of
    `_condition`, plus the three backend calls. */
module RuntimeSpec {
  import opened CommonTypes
  import opened States
  import opened TrialAudit

  datatype Lease = Lease(
    token: string,
    skill: Skill,
    generation: nat,
    trial: TrialId,
    nextSequence: nat,
    status: SessionState)

  /** The policy backend: the skill of the loaded policy and the noise key. */
  datatype Backend = Backend(prepared: Option<Skill>, key: Key)

  /** `leases` holds every SessionLease object ever made; `session` names the current one. */
  datatype Runtime = Runtime(
    state: RuntimeState,
    activeSkill: Option<Skill>,
    generation: nat,
    session: Option<SessionId>,
    leases: map<SessionId, Lease>,
    trial: Option<TrialId>,
    rootSeed: Option<int>,
    inFlight: int,
    lastError: Option<ErrorCode>,
    audit: Store,
    backend: Backend)

  /** A server process starts with nothing loaded, on an audit root that may hold old trials. */
  function Fresh(disk: set<TrialId>, backend: Backend): Runtime {
    Runtime(Starting, None, 0, None, map[], None, None, 0, None, Store(None, disk, map[], map[], map[], map[]), backend)
  }

  // ----- private helpers of the class -----

  function Move(r: Runtime, target: RuntimeState): (Runtime, Outcome<()>) {
    if target in RuntimeTargets(r.state) then (r.(state := target), Returned(())) else (r, Raised(StateRejected))
  }

  function Invalidate(r: Runtime, status: SessionState): Runtime {
    if r.session.None? || r.session.value !in r.leases then r.(session := None)
    else
      var id := r.session.value;
      r.(session := None, leases := r.leases[id := r.leases[id].(token := "", status := status)])
  }

  /** Every state but FAILED and STOPPING may move to FAILED, so the transition cannot raise. */
  function Fail(r: Runtime, code: ErrorCode): Runtime {
    var q := Invalidate(r, SessionState.Aborted);
    q.(lastError := Some(code), state := if Failed in RuntimeTargets(q.state) then Failed else q.state)
  }

  predicate HasActiveSession(r: Runtime) {
    r.session.Some? && r.session.value in r.leases && r.leases[r.session.value].status == Active
  }

  // ----- prepare_skill -----

  datatype PrepareEntry = PrepareRefused(code: ErrorCode) | MustDrain | MayLoad

  /** Lines 78-91 and the drain loop's first test. */
  function PrepareEnter(r: Runtime, skill: Skill): (Runtime, PrepareEntry) {
    if skill == "" then (r, PrepareRefused(InvalidFieldValue))
    else if r.trial.Some? then (r, PrepareRefused(StateRejected))
    else if r.state == Failed || r.state == Stopping || r.state == Loading || r.state == Switching then
      (r, PrepareRefused(StateRejected))
    else
      var q := Invalidate(r, SessionState.Aborted);
      if q.state == Starting then (Move(q, Loading).0, MayLoad)
      else
        var (d, moved) := Move(q, Draining);
        if moved.Raised? then (d, PrepareRefused(moved.code))
        else if d.inFlight != 0 then (d, MustDrain)
        else PrepareDrained(d)
  }

  /** Lines 99-100: after the drain loop. */
  function PrepareDrained(r: Runtime): (Runtime, PrepareEntry) {
    var (q, switching) := Move(r, Switching);
    if switching.Raised? then (q, PrepareRefused(switching.code))
    else
      var (p, loading) := Move(q, Loading);
      if loading.Raised? then (p, PrepareRefused(loading.code)) else (p, MayLoad)
  }

  /** Lines 120-125: skill, identity and generation are stored before the transition is checked. */
  function PrepareCommit(r: Runtime, skill: Skill): (Runtime, Outcome<()>) {
    Move(r.(activeSkill := Some(skill), generation := r.generation + 1), Ready)
  }

  // ----- begin_trial -----

  /** How begin_trial's calls fare: the PRNG reset may raise, and so may the audit store. */
  datatype BeginIos = ResetRaises(after: Key) | ResetDone(io: BeginIo)

  datatype BeginResult = BeginRefused(code: ErrorCode) | BeginRaised | Begun

  function BeginTrial(r: Runtime, trial: TrialId, seed: int, io: BeginIos): (Runtime, BeginResult) {
    if r.state != Ready then (r, BeginRefused(StateRejected))
    else if r.trial.Some? then (r, BeginRefused(StateRejected))
    else if r.activeSkill.None? then (r, BeginRefused(ServerFailed))
    else if io.ResetRaises? then (r.(backend := r.backend.(key := io.after)), BeginRaised)
    else
      var q := r.(backend := r.backend.(key := Root(seed)));
      var (audit, begun) := Begin(q.audit, trial, q.activeSkill.value, q.generation, seed, io.io);
      match begun
      case Raised(code) => (q.(audit := audit), BeginRefused(code))
      case Returned(t) => (q.(audit := audit, trial := Some(t), rootSeed := Some(seed)), Begun)
  }

  // ----- sessions -----

  /** `id` and `token` are the fresh uuid and secret. */
  function OpenSession(r: Runtime, id: SessionId, token: string): (Runtime, Outcome<Lease>) {
    if r.state != Ready then (r, Raised(StateRejected))
    else if r.trial.None? || r.activeSkill.None? then (r, Raised(TrialRequired))
    else if HasActiveSession(r) then (r, Raised(SessionAlreadyActive))
    else
      var lease := Lease(token, r.activeSkill.value, r.generation, r.trial.value, 0, Active);
      (r.(session := Some(id), leases := r.leases[id := lease]), Returned(lease))
  }

  function CloseSession(r: Runtime, id: SessionId): (Runtime, Outcome<()>) {
    if !HasActiveSession(r) then (r, Raised(SessionRequired))
    else if r.session.value != id then (r, Raised(SessionInvalid))
    else if r.inFlight != 0 then (r, Raised(InferenceBusy))
    else (Invalidate(r, Closed), Returned(()))
  }

  // ----- infer -----

  /** `_validate_request_locked` and the increment of `_in_flight`; `expired` is the clock's verdict. */
  function Admit(r: Runtime, req: Request, expired: bool): (Runtime, Outcome<()>) {
    if !HasActiveSession(r) then (r, Raised(SessionRequired))
    else
      var lease := r.leases[r.session.value];
      if expired then (Invalidate(r, Expired), Raised(SessionExpired))
      else if req.session != r.session.value || req.token != lease.token then (r, Raised(SessionInvalid))
      else if req.trial != lease.trial || r.trial != Some(req.trial) then (r, Raised(TrialMismatch))
      else if req.skill != lease.skill || r.activeSkill != Some(req.skill) then (r, Raised(SkillMismatch))
      else if req.generation != lease.generation || req.generation != r.generation then (r, Raised(GenerationMismatch))
      else if req.sequence != lease.nextSequence then (r, Raised(SequenceMismatch))
      else if r.state != Ready then (r, Raised(StateRejected))
      else (r.(inFlight := r.inFlight + 1), Returned(()))
  }

  /** The backend's answer: it may raise, before or after it has split its key. */
  datatype Inference = Inferred(actions: Actions) | InferRaises(split: bool)

  function BackendInfer(b: Backend, answer: Inference): (Backend, Outcome<(Digest, Actions)>) {
    if b.prepared.None? then (b, Raised(PolicyFailed))
    else
      match answer
      case InferRaises(split) => (if split then b.(key := Carried(b.key)) else b, Raised(PolicyFailed))
      case Inferred(actions) => (b.(key := Carried(b.key)), Returned((OfNoise(b.key), actions)))
  }

  function RecordRow(r: Runtime, row: Row, io: RecordIo): (Runtime, Outcome<()>) {
    var (audit, done) := Record(r.audit, row, io);
    (r.(audit := audit), done)
  }

  /** Lines 238-256: `id` is the lease that admitted the request. */
  function Respond(r: Runtime, id: SessionId): (Runtime, Outcome<()>) {
    if r.session != Some(id) || !HasActiveSession(r) then (Fail(r, SessionInvalid), Raised(SessionInvalid))
    else
      var lease := r.leases[id];
      (r.(leases := r.leases[id := lease.(nextSequence := lease.nextSequence + 1)]), Returned(()))
  }

  function Leave(r: Runtime): Runtime {
    r.(inFlight := r.inFlight - 1)
  }

  // ----- end of a trial -----

  function EndTrial(r: Runtime, summaryWritten: bool, manifestWritten: bool): (Runtime, Outcome<Manifest>) {
    if HasActiveSession(r) then (r, Raised(SessionAlreadyActive))
    else if r.trial.None? then (r, Raised(TrialRequired))
    else
      var (audit, ended) := End(r.audit, summaryWritten, manifestWritten);
      if ended.Raised? then (Fail(r.(audit := audit), AuditCommitFailed), ended)
      else (r.(audit := audit, trial := None, rootSeed := None), ended)
  }

  function Abort(r: Runtime, written: bool): (Runtime, Outcome<Option<Manifest>>) {
    var q := Invalidate(r, SessionState.Aborted);
    var (audit, ended) := Terminate(q.audit, TrialStatus.Aborted, None, written);
    if ended.Raised? then (Fail(q.(audit := audit), AuditCommitFailed), ended)
    else (q.(audit := audit, trial := None, rootSeed := None), ended)
  }

  function MarkAmbiguous(r: Runtime, id: SessionId, sequence: nat, written: bool)
    : (Runtime, Outcome<Option<Manifest>>)
  {
    if r.session != Some(id) then (r, Returned(None))
    else
      var q := Invalidate(r, SessionState.Aborted);
      var (audit, ended) := Terminate(q.audit, Ambiguous, Some(sequence), written);
      if ended.Raised? then (Fail(q.(audit := audit), AuditCommitFailed), ended)
      else (Fail(q.(audit := audit, trial := None, rootSeed := None), ServerFailed), ended)
  }

  /** The critical section of close(). */
  function Close(r: Runtime, written: bool): Runtime {
    var q := Invalidate(if r.state == Stopping then r else Move(r, Stopping).0, SessionState.Aborted);
    if q.trial.None? then q
    else
      var (audit, ended) := Terminate(q.audit, TrialStatus.Aborted, None, written);
      if ended.Raised? then q.(audit := audit) else q.(audit := audit, trial := None, rootSeed := None)
  }
}
