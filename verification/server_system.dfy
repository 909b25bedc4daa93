/** The server as a concurrent system: any number of threads inside PolicyRuntime, one event per
    critical section, backend call or lock operation. Timeouts and failures are choices of the event. */
module ServerSystem {
  import opened CommonTypes
  import opened States
  import opened TrialAudit
  import opened RuntimeSpec

  /** Where a call stands. The comment names the step that comes next. */
  datatype Pc =
    // infer
    | InferWaiting(req: Request)                                  // take the execution lock
    | InferLocked(req: Request)                                   // validate and count in
    | InferAdmitted(req: Request)                                 // backend.infer
    | InferComputed(req: Request, noise: Digest, actions: Actions)// audit.record_request
    | InferRecorded(req: Request, row: Row, actions: Actions)     // check the lease and answer
    | InferBroken(req: Request, code: ErrorCode)                  // _fail_locked
    | InferLeaving(req: Request)                                  // count out
    // prepare_skill
    | PrepareDraining(skill: Skill)                               // wait for in-flight work
    | PrepareLoading(skill: Skill)                                // take the execution lock
    | PrepareLocked(skill: Skill)                                 // backend.prepare
    | PrepareBroken                                               // _fail_locked
    | PreparePrepared(skill: Skill)                               // release the execution lock
    | PrepareCommitting(skill: Skill)                             // publish the new generation
    // begin_trial
    | BeginWaiting(trial: TrialId, seed: int)                     // take the execution lock
    | BeginLocked(trial: TrialId, seed: int)                      // reset the PRNG, open the trial
    | BeginBroken                                                 // _fail_locked
    // abort
    | AbortWaiting                                                // take the execution lock
    | AbortLocked                                                 // end the trial
    // any of them
    | Releasing                                                   // release the execution lock
    // close
    | Closing                                                     // backend.close

  datatype System = System(
    rt: Runtime,
    lock: Option<ThreadId>,
    threads: map<ThreadId, Pc>,
    responses: seq<Response>)
  {
    function Holder(): Pc
      requires lock.Some? && lock.value in threads
    {
      threads[lock.value]
    }

    function With(t: ThreadId, r: Runtime, pc: Pc): System {
      this.(rt := r, threads := threads[t := pc])
    }

    function Without(t: ThreadId, r: Runtime): System {
      this.(rt := r, threads := threads - {t})
    }

    predicate At(t: ThreadId) { t in threads }
  }

  function Start(disk: set<TrialId>, backend: Backend): System {
    System(RuntimeSpec.Fresh(disk, backend), None, map[], [])
  }

  datatype Event =
    // every call that takes the execution lock
    | Call(t: ThreadId, first: Pc)
    | Acquire(t: ThreadId)
    | Busy(t: ThreadId)                                           // the wait for the lock times out
    | Release(t: ThreadId)
    | FailStep(t: ThreadId)
    // infer
    | InferEnter(t: ThreadId, expired: bool)
    | InferBackend(t: ThreadId, answer: Inference)
    | InferRecord(t: ThreadId, disk: RecordIo)
    | InferRespond(t: ThreadId)
    | InferLeave(t: ThreadId)
    // prepare_skill
    | PrepareCall(t: ThreadId, skill: Skill)
    | PrepareDrain(t: ThreadId)
    | PrepareDrainTimeout(t: ThreadId)
    | PrepareBackend(t: ThreadId, loaded: bool, after: Backend)
    | PrepareDone(t: ThreadId)
    // the trial and its session
    | BeginEnter(t: ThreadId, io: BeginIos)
    | OpenCall(id: SessionId, token: string)
    | CloseSessionCall(id: SessionId)
    | EndCall(summaryWritten: bool, manifestWritten: bool)
    | AbortEnter(t: ThreadId, written: bool)
    | AmbiguousCall(id: SessionId, sequence: nat, written: bool)
    // close
    | CloseCall(t: ThreadId, written: bool)
    | CloseBackend(t: ThreadId)
  {
    /** The thread that takes the step, for steps of a thread inside a call. */
    function Of(): Option<ThreadId> {
      match this
      case Acquire(t) => Some(t)
      case Busy(t) => Some(t)
      case Release(t) => Some(t)
      case FailStep(t) => Some(t)
      case InferEnter(t, _) => Some(t)
      case InferBackend(t, _) => Some(t)
      case InferRecord(t, _) => Some(t)
      case InferRespond(t) => Some(t)
      case InferLeave(t) => Some(t)
      case PrepareDrain(t) => Some(t)
      case PrepareDrainTimeout(t) => Some(t)
      case PrepareBackend(t, _, _) => Some(t)
      case PrepareDone(t) => Some(t)
      case BeginEnter(t, _) => Some(t)
      case AbortEnter(t, _) => Some(t)
      case CloseBackend(t) => Some(t)
      case _ => None
    }
  }

  /** Program counters at which a thread owns the execution lock. */
  predicate HoldsLock(pc: Pc) {
    InFlight(pc) || pc.InferLocked? || pc.PrepareLocked? || pc.PrepareBroken? || pc.PreparePrepared?
    || pc.BeginLocked? || pc.BeginBroken? || pc.AbortLocked? || pc.Releasing?
  }

  /** Program counters between the increment and the decrement of `_in_flight`. */
  predicate InFlight(pc: Pc) {
    pc.InferAdmitted? || pc.InferComputed? || pc.InferRecorded? || pc.InferBroken? || pc.InferLeaving?
  }

  predicate Preparing(pc: Pc) {
    pc.PrepareDraining? || pc.PrepareLoading? || pc.PrepareLocked? || pc.PrepareBroken?
    || pc.PreparePrepared? || pc.PrepareCommitting?
  }

  predicate Waiting(pc: Pc) {
    pc.InferWaiting? || pc.PrepareLoading? || pc.BeginWaiting? || pc.AbortWaiting?
  }

  predicate Broken(pc: Pc) {
    pc.InferBroken? || pc.PrepareBroken? || pc.BeginBroken?
  }

  predicate Enabled(s: System, e: Event) {
    match e
    case Call(t, first) => !s.At(t) && (first.InferWaiting? || first.BeginWaiting? || first.AbortWaiting?)
    case Acquire(t) => s.At(t) && Waiting(s.threads[t]) && s.lock.None?
    case Busy(t) => s.At(t) && Waiting(s.threads[t])
    case Release(t) => s.At(t) && (s.threads[t].Releasing? || s.threads[t].PreparePrepared?)
    case FailStep(t) => s.At(t) && Broken(s.threads[t])
    case InferEnter(t, _) => s.At(t) && s.threads[t].InferLocked?
    case InferBackend(t, _) => s.At(t) && s.threads[t].InferAdmitted?
    case InferRecord(t, _) => s.At(t) && s.threads[t].InferComputed?
    case InferRespond(t) => s.At(t) && s.threads[t].InferRecorded?
    case InferLeave(t) => s.At(t) && s.threads[t].InferLeaving?
    case PrepareCall(t, _) => !s.At(t)
    case PrepareDrain(t) => s.At(t) && s.threads[t].PrepareDraining? && s.rt.inFlight == 0
    case PrepareDrainTimeout(t) => s.At(t) && s.threads[t].PrepareDraining?
    case PrepareBackend(t, _, _) => s.At(t) && s.threads[t].PrepareLocked?
    case PrepareDone(t) => s.At(t) && s.threads[t].PrepareCommitting?
    case BeginEnter(t, _) => s.At(t) && s.threads[t].BeginLocked?
    case OpenCall(id, token) => id !in s.rt.leases && token != ""   // uuid4 and token_urlsafe are fresh
    case CloseSessionCall(_) => true
    case EndCall(_, _) => true
    case AbortEnter(t, _) => s.At(t) && s.threads[t].AbortLocked?
    case AmbiguousCall(_, _, _) => true
    case CloseCall(t, _) => !s.At(t)
    case CloseBackend(t) => s.At(t) && s.threads[t].Closing?
  }

  /** The program counter of a waiting thread once it owns the lock. */
  function Locked(pc: Pc): Pc
    requires Waiting(pc)
  {
    match pc
    case InferWaiting(req) => InferLocked(req)
    case PrepareLoading(skill) => PrepareLocked(skill)
    case BeginWaiting(trial, seed) => BeginLocked(trial, seed)
    case AbortWaiting => AbortLocked
  }

  /** infer and begin_trial give up quietly; prepare_skill and abort fail the runtime. */
  function GiveUp(r: Runtime, pc: Pc): Runtime
    requires Waiting(pc)
  {
    match pc
    case PrepareLoading(_) => Fail(r, InferenceBusy)
    case AbortWaiting => Fail(r, InferenceTimeout)
    case _ => r
  }

  function AfterEntry(s: System, t: ThreadId, skill: Skill, r: Runtime, entry: PrepareEntry): System {
    match entry
    case PrepareRefused(_) => s.Without(t, r)
    case MustDrain => s.With(t, r, PrepareDraining(skill))
    case MayLoad => s.With(t, r, PrepareLoading(skill))
  }

  // ----- the steps, by what they work on -----

  /** The execution lock, and giving up. */
  predicate LockStep(e: Event) {
    e.Call? || e.Acquire? || e.Busy? || e.Release? || e.FailStep?
  }

  predicate InferStep(e: Event) {
    e.InferEnter? || e.InferBackend? || e.InferRecord? || e.InferRespond? || e.InferLeave?
  }

  predicate PrepareStep(e: Event) {
    e.PrepareCall? || e.PrepareDrain? || e.PrepareDrainTimeout? || e.PrepareBackend? || e.PrepareDone?
  }

  /** A trial or a session begins, or a session ends. */
  predicate SessionStep(e: Event) {
    e.BeginEnter? || e.OpenCall? || e.CloseSessionCall?
  }

  /** A trial or the server ends. */
  predicate EndingStep(e: Event) {
    e.EndCall? || e.AbortEnter? || e.AmbiguousCall? || e.CloseCall? || e.CloseBackend?
  }

  function ApplyLock(s: System, e: Event): System
    requires Enabled(s, e) && LockStep(e)
  {
    var r := s.rt;
    match e
    case Call(t, first) => s.With(t, r, first)
    case Acquire(t) => s.With(t, r, Locked(s.threads[t])).(lock := Some(t))
    case Busy(t) => s.Without(t, GiveUp(r, s.threads[t]))
    case Release(t) =>
      var pc := s.threads[t];
      (if pc.PreparePrepared? then s.With(t, r, PrepareCommitting(pc.skill)) else s.Without(t, r)).(lock := None)
    case FailStep(t) =>
      var pc := s.threads[t];
      s.With(t, Fail(r, if pc.InferBroken? then pc.code else PolicyFailed),
             if pc.InferBroken? then InferLeaving(pc.req) else Releasing)
  }

  function ApplyInfer(s: System, e: Event): System
    requires Enabled(s, e) && InferStep(e)
  {
    var r := s.rt;
    match e
    case InferEnter(t, expired) =>
      var req := s.threads[t].req;
      var (q, admitted) := Admit(r, req, expired);
      s.With(t, q, if admitted.Returned? then InferAdmitted(req) else Releasing)
    case InferBackend(t, answer) =>
      var req := s.threads[t].req;
      var (b, result) := BackendInfer(r.backend, answer);
      s.With(t, r.(backend := b),
             match result
             case Returned(value) => InferComputed(req, value.0, value.1)
             case Raised(code) => InferBroken(req, code))
    case InferRecord(t, disk) =>
      var pc := s.threads[t];
      var row := RowFor(pc.req, pc.noise, pc.actions);
      var (q, recorded) := RecordRow(r, row, disk);
      s.With(t, q,
             if recorded.Returned? then InferRecorded(pc.req, row, pc.actions) else InferBroken(pc.req, recorded.code))
    case InferRespond(t) =>
      var pc := s.threads[t];
      var (q, answered) := Respond(r, pc.req.session);
      var after := s.With(t, q, InferLeaving(pc.req));
      if answered.Returned? then after.(responses := s.responses + [Reply(pc.row, pc.actions)]) else after
    case InferLeave(t) => s.With(t, Leave(r), Releasing)
  }

  function ApplyPrepare(s: System, e: Event): System
    requires Enabled(s, e) && PrepareStep(e)
  {
    var r := s.rt;
    match e
    case PrepareCall(t, skill) =>
      var (q, entry) := PrepareEnter(r, skill);
      AfterEntry(s, t, skill, q, entry)
    case PrepareDrain(t) =>
      var (q, entry) := PrepareDrained(r);
      AfterEntry(s, t, s.threads[t].skill, q, entry)
    case PrepareDrainTimeout(t) => s.Without(t, Fail(r, InferenceTimeout))
    case PrepareBackend(t, loaded, after) =>
      var skill := s.threads[t].skill;
      if loaded then s.With(t, r.(backend := Backend(Some(skill), Root(0))), PreparePrepared(skill))
      else s.With(t, r.(backend := after), PrepareBroken)
    case PrepareDone(t) => s.Without(t, PrepareCommit(r, s.threads[t].skill).0)
  }

  function ApplySession(s: System, e: Event): System
    requires Enabled(s, e) && SessionStep(e)
  {
    var r := s.rt;
    match e
    case BeginEnter(t, io) =>
      var (q, result) := BeginTrial(r, s.threads[t].trial, s.threads[t].seed, io);
      s.With(t, q, if result.BeginRaised? then BeginBroken else Releasing)
    case OpenCall(id, token) => s.(rt := OpenSession(r, id, token).0)
    case CloseSessionCall(id) => s.(rt := CloseSession(r, id).0)
  }

  function ApplyEnding(s: System, e: Event): System
    requires Enabled(s, e) && EndingStep(e)
  {
    var r := s.rt;
    match e
    case EndCall(summaryWritten, manifestWritten) => s.(rt := EndTrial(r, summaryWritten, manifestWritten).0)
    case AbortEnter(t, written) => s.With(t, Abort(r, written).0, Releasing)
    case AmbiguousCall(id, sequence, written) => s.(rt := MarkAmbiguous(r, id, sequence, written).0)
    case CloseCall(t, written) => s.With(t, Close(r, written), Closing)
    case CloseBackend(t) => s.Without(t, r.(backend := r.backend.(prepared := None)))
  }

  function Apply(s: System, e: Event): System
    requires Enabled(s, e)
  {
    if LockStep(e) then ApplyLock(s, e)
    else if InferStep(e) then ApplyInfer(s, e)
    else if PrepareStep(e) then ApplyPrepare(s, e)
    else if SessionStep(e) then ApplySession(s, e)
    else ApplyEnding(s, e)
  }

  /** The state after a run of events, if each was enabled in turn. */
  function Run(s: System, events: seq<Event>): Option<System>
    decreases |events|
  {
    if events == [] then Some(s)
    else
      var last := |events| - 1;
      var before := Run(s, events[..last]);
      if before.Some? && Enabled(before.value, events[last]) then Some(Apply(before.value, events[last])) else None
  }
}
