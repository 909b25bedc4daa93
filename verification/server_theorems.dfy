/** What the server guarantees in every run: any number of threads, any interleaving,
    any pattern of timeouts, backend exceptions and audit failures. */
module ServerTheorems {
  import opened CommonTypes
  import opened States
  import opened TrialAudit
  import opened RuntimeSpec
  import opened ServerSystem
  import opened ServerInvariant
  import opened ServerPreservation

  /** `s` is the state after the events, from a fresh process on some audit root. */
  ghost predicate Reaches(disk: set<TrialId>, backend: Backend, events: seq<Event>, s: System) {
    Run(Start(disk, backend), events) == Some(s)
  }

  lemma Reached(disk: set<TrialId>, backend: Backend, events: seq<Event>, s: System)
    requires Reaches(disk, backend, events, s)
    ensures Inv(s)
  {
    StartInv(disk, backend);
    RunInv(Start(disk, backend), events);
  }

  // ----- the session -----

  /** An open session is an active lease on exactly the policy, generation and trial that are live. */
  lemma SessionMatchesRuntime(disk: set<TrialId>, backend: Backend, events: seq<Event>, s: System)
    requires Reaches(disk, backend, events, s) && s.rt.session.Some?
    ensures s.rt.session.value in s.rt.leases
    ensures var lease := s.rt.leases[s.rt.session.value];
      && lease.status == Active && lease.token != "" && s.rt.state == Ready
      && s.rt.activeSkill == Some(lease.skill) && s.rt.generation == lease.generation
      && s.rt.trial == Some(lease.trial)
      && s.rt.audit.active.Some? && s.rt.audit.active.value.trial == lease.trial
      && s.rt.backend.prepared == Some(lease.skill)
  {
    Reached(disk, backend, events, s);
  }

  /** A lease that is no longer current is dead for good: not active, its token blanked. */
  lemma OldLeasesAreRevoked(disk: set<TrialId>, backend: Backend, events: seq<Event>, s: System, id: SessionId)
    requires Reaches(disk, backend, events, s) && id in s.rt.leases && s.rt.session != Some(id)
    ensures s.rt.leases[id].status != Active && s.rt.leases[id].token == ""
    ensures forall req: Request, expired :: req.session == id ==> Admit(s.rt, req, expired).1.Raised?
  {
    Reached(disk, backend, events, s);
  }

  // ----- work in flight -----

  /** At most one request is in flight; while READY it runs under the current session. */
  lemma OneRequestInFlight(disk: set<TrialId>, backend: Backend, events: seq<Event>, s: System)
    requires Reaches(disk, backend, events, s)
    ensures s.rt.inFlight == 0 || s.rt.inFlight == 1
    ensures s.rt.inFlight == 1 <==> s.lock.Some? && s.At(s.lock.value) && InFlight(s.Holder())
    ensures s.rt.inFlight == 1 && s.rt.state == Ready ==> s.rt.session == Some(s.Holder().req.session)
    ensures forall t, u :: s.At(t) && s.At(u) && InFlight(s.threads[t]) && InFlight(s.threads[u]) ==> t == u
  {
    Reached(disk, backend, events, s);
  }

  /** prepare_skill never finds work to drain: its wait loop and its drain timeout are dead code,
      and DRAINING and SWITCHING are never seen by another thread. */
  lemma NothingToDrain(disk: set<TrialId>, backend: Backend, events: seq<Event>, s: System, skill: Skill)
    requires Reaches(disk, backend, events, s)
    ensures s.rt.state != Draining && s.rt.state != Switching
    ensures forall t :: s.At(t) ==> !s.threads[t].PrepareDraining?
    ensures s.rt.inFlight != 0 ==> PrepareEnter(s.rt, skill).1.PrepareRefused? && PrepareEnter(s.rt, skill).0 == s.rt
  {
    Reached(disk, backend, events, s);
  }

  // ----- the request log -----

  /** Each session's rows are numbered 0, 1, 2, ... and its answers are those rows in order, save perhaps the last. */
  lemma SessionLogIsGapless(disk: set<TrialId>, backend: Backend, events: seq<Event>, s: System, id: SessionId)
    requires Reaches(disk, backend, events, s) && id in s.rt.leases
    ensures forall i :: 0 <= i < |SessionRows(s.rt, id)| ==>
      SessionRows(s.rt, id)[i].sequence == i && SessionRows(s.rt, id)[i].session == id
    ensures OfSession(Answered(s.responses), id) <= SessionRows(s.rt, id)
    ensures |SessionRows(s.rt, id)| <= |OfSession(Answered(s.responses), id)| + 1
  {
    Reached(disk, backend, events, s);
    assert SequenceInv(s, id);
    OfSessionIsOfSession(s.rt.audit.RowsOf(s.rt.leases[id].trial), id);
  }

  lemma OfSessionIsOfSession(rows: seq<Row>, id: SessionId)
    ensures forall i :: 0 <= i < |OfSession(rows, id)| ==>
      OfSession(rows, id)[i].session == id && OfSession(rows, id)[i] in rows
    decreases |rows|
  {
    if rows != [] {
      OfSessionIsOfSession(rows[..|rows| - 1], id);
    }
  }

  /** A recorded row without an answer is on its way to one, or the runtime is down. */
  lemma UnansweredRowMeansFailure(disk: set<TrialId>, backend: Backend, events: seq<Event>, s: System, id: SessionId)
    requires Reaches(disk, backend, events, s) && id in s.rt.leases
    requires |SessionRows(s.rt, id)| > |OfSession(Answered(s.responses), id)|
    ensures RecordedFor(s, id) || s.rt.state == Failed || s.rt.state == Stopping
    ensures RecordedFor(s, id) || s.rt.session != Some(id)
  {
    Reached(disk, backend, events, s);
    assert SequenceInv(s, id);
  }

  /** An answer is given only in READY, under the lease that admitted the request, after its row is in that lease's
      log. */
  lemma AnswersAreSafe(disk: set<TrialId>, backend: Backend, events: seq<Event>, s: System, e: Event)
    requires Reaches(disk, backend, events, s) && Enabled(s, e) && Apply(s, e).responses != s.responses
    ensures e.InferRespond? && s.threads[e.t].InferRecorded?
    ensures var pc := s.threads[e.t];
      && Apply(s, e).responses == s.responses + [Reply(pc.row, pc.actions)]
      && s.rt.state == Ready && s.rt.session == Some(pc.req.session)
      && pc.req.session in s.rt.leases && s.rt.leases[pc.req.session].status == Active
      && pc.row in SessionRows(s.rt, pc.req.session)
      && pc.row.requestHash == pc.req.Hash() && pc.row.actionHash == OfActions(pc.actions)
      && pc.row.sequence == s.rt.leases[pc.req.session].nextSequence
  {
    Reached(disk, backend, events, s);
    OnlyRespondAnswers(s, e);
    RespondIsSafe(s, e);
  }

  lemma OnlyRespondAnswers(s: System, e: Event)
    requires Enabled(s, e) && Apply(s, e).responses != s.responses
    ensures e.InferRespond?
  {
  }

  lemma RespondIsSafe(s: System, e: Event)
    requires LockInv(s) && SessionInv(s.rt) && WorkInv(s) && Enabled(s, e) && e.InferRespond?
    requires Apply(s, e).responses != s.responses
    ensures var pc := s.threads[e.t];
      && Apply(s, e).responses == s.responses + [Reply(pc.row, pc.actions)]
      && s.rt.state == Ready && s.rt.session == Some(pc.req.session)
      && pc.req.session in s.rt.leases && s.rt.leases[pc.req.session].status == Active
      && pc.row in SessionRows(s.rt, pc.req.session)
      && pc.row.requestHash == pc.req.Hash() && pc.row.actionHash == OfActions(pc.actions)
      && pc.row.sequence == s.rt.leases[pc.req.session].nextSequence
  {
    var pc := s.threads[e.t];
    assert FlightInv(s.rt, pc);
    assert SessionRows(s.rt, pc.req.session)[pc.req.sequence] == pc.row;
  }

  /** The n-th row of a trial was sampled with the n-th split of the key made from that trial's root seed. */
  lemma NoiseFollowsTheSeed(disk: set<TrialId>, backend: Backend, events: seq<Event>, s: System, t: TrialId, n: nat)
    requires Reaches(disk, backend, events, s) && n < |s.rt.audit.RowsOf(t)|
    ensures |s.rt.audit.WritesOf(t)| > 0
    ensures s.rt.audit.RowsOf(t)[n].noiseHash == OfNoise(KeyAfter(s.rt.audit.WritesOf(t)[0].seed, n))
  {
    Reached(disk, backend, events, s);
  }

  // ----- the trial and its manifest -----

  lemma TrialMatchesAudit(disk: set<TrialId>, backend: Backend, events: seq<Event>, s: System)
    requires Reaches(disk, backend, events, s)
    ensures s.rt.trial.Some? <==> s.rt.audit.active.Some?
    ensures s.rt.trial.Some? ==>
      s.rt.trial.value == s.rt.audit.active.value.trial && s.rt.rootSeed == Some(s.rt.audit.active.value.seed)
  {
    Reached(disk, backend, events, s);
  }

  /** A manifest is ACTIVE exactly while its trial is, then closed once, with the true number of rows. */
  lemma ManifestLifecycle(disk: set<TrialId>, backend: Backend, events: seq<Event>, s: System, t: TrialId)
    requires Reaches(disk, backend, events, s) && t in s.rt.audit.manifests
    ensures var writes := s.rt.audit.manifests[t];
      && 1 <= |writes| <= 2 && (|writes| == 1 <==> s.rt.trial == Some(t)) && writes[0].status == TrialActive
      && (|writes| == 2 ==>
            && writes[1].status in {Committed, TrialStatus.Aborted, Ambiguous}
            && writes[1].requestCount == |s.rt.audit.RowsOf(t)|)
  {
    Reached(disk, backend, events, s);
  }

  /** Disk contents only grow: manifests and row logs are extended at their end, directories never go away. */
  ghost predicate DiskGrows(a: Store, b: Store) {
    && a.directories <= b.directories
    && (forall t :: a.WritesOf(t) <= b.WritesOf(t))
    && (forall t :: a.RowsOf(t) <= b.RowsOf(t))
  }

  lemma BeginGrowsDisk(a: Store, trial: TrialId, skill: Skill, generation: nat, seed: int, io: BeginIo)
    requires ManifestInv(a)
    ensures DiskGrows(a, Begin(a, trial, skill, generation, seed, io).0)
  {
  }

  lemma RecordGrowsDisk(a: Store, row: Row, io: RecordIo)
    ensures DiskGrows(a, Record(a, row, io).0)
  {
  }

  lemma EndGrowsDisk(a: Store, summaryWritten: bool, manifestWritten: bool)
    ensures DiskGrows(a, End(a, summaryWritten, manifestWritten).0)
  {
  }

  lemma TerminateGrowsDisk(a: Store, status: TrialStatus, sequence: Option<nat>, written: bool)
    ensures DiskGrows(a, Terminate(a, status, sequence, written).0)
  {
  }

  lemma BeginStepGrowsDisk(s: System, e: Event)
    requires LockInv(s) && ManifestInv(s.rt.audit) && Enabled(s, e) && e.BeginEnter?
    ensures DiskGrows(s.rt.audit, Apply(s, e).rt.audit)
  {
    BeginEffect(s, e);
    if Apply(s, e).rt.audit != s.rt.audit {
      var pc := s.threads[e.t];
      BeginGrowsDisk(s.rt.audit, pc.trial, s.rt.activeSkill.value, s.rt.generation, pc.seed, e.io.io);
    }
  }

  lemma EndStepGrowsDisk(s: System, e: Event)
    requires ControlInv(s) && Enabled(s, e) && (e.EndCall? || e.AbortEnter? || e.AmbiguousCall? || e.CloseCall?)
    ensures DiskGrows(s.rt.audit, Apply(s, e).rt.audit)
  {
    match e
    case EndCall(summaryWritten, manifestWritten) =>
      EndIsUntouched(s, e);
      EndGrowsDisk(s.rt.audit, summaryWritten, manifestWritten);
    case AbortEnter(_, written) =>
      AbortIsUntouched(s, e);
      TerminateGrowsDisk(s.rt.audit, TrialStatus.Aborted, None, written);
    case AmbiguousCall(_, sequence, written) =>
      AmbiguousIsUntouched(s, e);
      TerminateGrowsDisk(s.rt.audit, Ambiguous, Some(sequence), written);
    case CloseCall(_, written) =>
      CloseIsUntouched(s, e);
      TerminateGrowsDisk(s.rt.audit, TrialStatus.Aborted, None, written);
  }

  lemma StepGrowsDisk(s: System, e: Event)
    requires ControlInv(s) && ManifestInv(s.rt.audit) && Enabled(s, e)
    ensures DiskGrows(s.rt.audit, Apply(s, e).rt.audit)
  {
    if e.BeginEnter? {
      BeginStepGrowsDisk(s, e);
    } else if e.EndCall? || e.AbortEnter? || e.AmbiguousCall? || e.CloseCall? {
      EndStepGrowsDisk(s, e);
    } else if e.InferRecord? {
      var pc := s.threads[e.t];
      RecordGrowsDisk(s.rt.audit, RowFor(pc.req, pc.noise, pc.actions), e.disk);
    } else if e.InferRespond? {
      RespondEffect(s, e);
    } else if e.OpenCall? {
      OpenEffect(s, e);
    } else {
      QuietIsUntouched(s, e);
    }
  }

  lemma RunGrowsDisk(s: System, events: seq<Event>)
    requires Inv(s) && Run(s, events).Some?
    ensures DiskGrows(s.rt.audit, Run(s, events).value.rt.audit)
    decreases |events|
  {
    if events != [] {
      var last := |events| - 1;
      RunGrowsDisk(s, events[..last]);
      RunInv(s, events[..last]);
      StepGrowsDisk(Run(s, events[..last]).value, events[last]);
    }
  }

  /** Once a trial's manifest is terminal it and the trial's rows never change again. */
  lemma ClosedTrialsAreFinal(s: System, events: seq<Event>, t: TrialId)
    requires Inv(s) && Run(s, events).Some? && |s.rt.audit.WritesOf(t)| == 2
    ensures Run(s, events).value.rt.audit.WritesOf(t) == s.rt.audit.WritesOf(t)
    ensures Run(s, events).value.rt.audit.RowsOf(t) == s.rt.audit.RowsOf(t)
  {
    RunInv(s, events);
    RunGrowsDisk(s, events);
  }

  /** A trial never starts in a directory that exists, on disk from an earlier process or from a failed start. */
  lemma DirectoriesAreNotReused(s: System, e: Event)
    requires Inv(s) && Enabled(s, e) && e.BeginEnter? && Apply(s, e).rt.trial != s.rt.trial
    ensures s.threads[e.t].trial !in s.rt.audit.directories
    ensures Apply(s, e).rt.audit.RowsOf(s.threads[e.t].trial) == []
  {
    hide Apply, LogInv, WorkInv, LoadingInv;
    NewTrialIsFresh(s, e);
  }

  lemma NewTrialIsFresh(s: System, e: Event)
    requires LockInv(s) && TrialInv(s.rt) && Enabled(s, e) && e.BeginEnter? && Apply(s, e).rt.trial != s.rt.trial
    ensures s.threads[e.t].trial !in s.rt.audit.directories
    ensures Apply(s, e).rt.audit.RowsOf(s.threads[e.t].trial) == []
  {
  }

  // ----- locks and progress -----

  predicate UsesBackend(e: Event) {
    e.InferBackend? || e.PrepareBackend? || e.BeginEnter?
  }

  /** backend.infer, backend.prepare and backend.reset_prng exclude one another: whoever can take such a
      step owns the execution lock, and nobody else can. */
  lemma BackendIsExclusive(disk: set<TrialId>, backend: Backend, events: seq<Event>, s: System, e: Event, f: Event)
    requires Reaches(disk, backend, events, s)
    requires Enabled(s, e) && UsesBackend(e) && Enabled(s, f) && UsesBackend(f)
    ensures s.lock == e.Of() && e.Of() == f.Of()
  {
    Reached(disk, backend, events, s);
    OwnsTheLock(s, e);
    OwnsTheLock(s, f);
  }

  lemma OwnsTheLock(s: System, e: Event)
    requires LockInv(s) && Enabled(s, e) && UsesBackend(e)
    ensures s.lock == e.Of()
  {
  }

  /** A wait that ends because its time is up. */
  predicate TimesOut(e: Event) {
    e.Busy? || e.PrepareDrainTimeout?
  }

  /** The step a thread takes when nothing goes wrong. */
  function Advance(t: ThreadId, pc: Pc): Event {
    match pc
    case InferWaiting(_) => Acquire(t)
    case PrepareLoading(_) => Acquire(t)
    case BeginWaiting(_, _) => Acquire(t)
    case AbortWaiting => Acquire(t)
    case InferLocked(_) => InferEnter(t, false)
    case InferAdmitted(_) => InferBackend(t, Inferred([]))
    case InferComputed(_, _, _) => InferRecord(t, RowWritten)
    case InferRecorded(_, _, _) => InferRespond(t)
    case InferBroken(_, _) => FailStep(t)
    case InferLeaving(_) => InferLeave(t)
    case PrepareDraining(_) => PrepareDrain(t)
    case PrepareLocked(skill) => PrepareBackend(t, true, Backend(Some(skill), Root(0)))
    case PrepareBroken => FailStep(t)
    case PreparePrepared(_) => Release(t)
    case PrepareCommitting(_) => PrepareDone(t)
    case BeginLocked(_, _) => BeginEnter(t, ResetDone(BeginWritten))
    case BeginBroken => FailStep(t)
    case AbortLocked => AbortEnter(t, true)
    case Releasing => Release(t)
    case Closing => CloseBackend(t)
  }

  /** A step of the thread itself, or of the owner of the lock it waits for. */
  predicate HelpsOn(s: System, e: Event, t: ThreadId)
    requires s.At(t)
  {
    e.Of() == Some(t) || (Waiting(s.threads[t]) && e.Of().Some? && e.Of() == s.lock)
  }

  /** No deadlock: every call in progress can take a step that is not a timeout,
      or waits for the execution lock while the lock's owner can. */
  lemma NobodyIsStuck(disk: set<TrialId>, backend: Backend, events: seq<Event>, s: System, t: ThreadId)
    requires Reaches(disk, backend, events, s) && s.At(t)
    ensures exists e :: Enabled(s, e) && !TimesOut(e) && HelpsOn(s, e, t)
  {
    Reached(disk, backend, events, s);
    hide Inv, Enabled, Advance, Run;
    var who := if Waiting(s.threads[t]) && s.lock.Some? then s.lock.value else t;
    CanAdvance(s, t, who);
    var e := Advance(who, s.threads[who]);
    assert Enabled(s, e) && !TimesOut(e) && e.Of() == Some(who);
  }

  lemma CanAdvance(s: System, t: ThreadId, who: ThreadId)
    requires Inv(s) && s.At(t) && who == (if Waiting(s.threads[t]) && s.lock.Some? then s.lock.value else t)
    ensures s.At(who)
    ensures var e := Advance(who, s.threads[who]); Enabled(s, e) && !TimesOut(e) && e.Of() == Some(who)
  {
    assert LockInv(s) && PrepareInv(s);
    hide Inv, Enabled, Advance;
    FreeToAdvance(s, who);
  }

  lemma FreeToAdvance(s: System, who: ThreadId)
    requires s.At(who) && !s.threads[who].PrepareDraining? && (Waiting(s.threads[who]) ==> s.lock.None?)
    ensures var e := Advance(who, s.threads[who]); Enabled(s, e) && !TimesOut(e) && e.Of() == Some(who)
  {
  }

  /** How many steps a call has left at most. */
  function StepsLeft(pc: Pc): nat {
    match pc
    case InferWaiting(_) => 7
    case InferLocked(_) => 6
    case InferAdmitted(_) => 5
    case InferComputed(_, _, _) => 4
    case InferRecorded(_, _, _) => 3
    case InferBroken(_, _) => 3
    case InferLeaving(_) => 2
    case PrepareDraining(_) => 6
    case PrepareLoading(_) => 5
    case PrepareLocked(_) => 4
    case PrepareBroken => 3
    case PreparePrepared(_) => 3
    case PrepareCommitting(_) => 2
    case BeginWaiting(_, _) => 4
    case BeginLocked(_, _) => 3
    case BeginBroken => 2
    case AbortWaiting => 3
    case AbortLocked => 2
    case Releasing => 1
    case Closing => 1
  }

  /** Each own step brings a call nearer its end and no step of another thread sets it back. */
  lemma CallsWearOut(s: System, e: Event, t: ThreadId)
    requires Enabled(s, e) && s.At(t)
    ensures e.Of() == Some(t) ==> !Apply(s, e).At(t) || StepsLeft(Apply(s, e).threads[t]) < StepsLeft(s.threads[t])
    ensures e.Of() != Some(t) ==> Apply(s, e).At(t) && Apply(s, e).threads[t] == s.threads[t]
  {
    hide PrepareEnter, PrepareCommit, Admit, BackendInfer, RecordRow, Respond, GiveUp, Fail;
  }

  // ----- failing closed -----

  /** The events that are failures of the server, of its disk, its backend or its transport. */
  predicate IsFault(s: System, e: Event)
    requires Enabled(s, e)
  {
    match e
    case Busy(t) => s.threads[t].PrepareLoading? || s.threads[t].AbortWaiting?
    case FailStep(_) => true
    case EndCall(_, _) => EndTrial(s.rt, e.summaryWritten, e.manifestWritten).1 == Raised(AuditCommitFailed)
    case AbortEnter(_, written) => !written && s.rt.audit.active.Some?
    case AmbiguousCall(id, _, _) => s.rt.session == Some(id)
    case _ => false
  }

  /** A rejected request, a closed session, an ordinary abort never fail the runtime: only faults do. A step that
      notes a failure comes after a backend call that raised or a record that was not written. */
  lemma OnlyFaultsFail(disk: set<TrialId>, backend: Backend, events: seq<Event>, s: System, e: Event)
    requires Reaches(disk, backend, events, s) && Enabled(s, e)
    requires Apply(s, e).rt.state == Failed && s.rt.state != Failed
    ensures IsFault(s, e)
    ensures e.FailStep? ==> exists i :: BrokenBy(events, e.t, i)
  {
    Reached(disk, backend, events, s);
    FaultsOnly(s, e);
    if e.FailStep? {
      DownIsDown(s, e);
      var i := BreakdownCause(disk, backend, events, s, e.t);
    }
  }

  /** A backend call raises, or a request is not recorded. */
  predicate BreaksDown(e: Event) {
    match e
    case InferBackend(_, answer) => answer.InferRaises?
    case InferRecord(_, disk) => !disk.RowWritten?
    case PrepareBackend(_, loaded, _) => !loaded
    case BeginEnter(_, io) => io.ResetRaises?
    case _ => false
  }

  /** The last step of thread t is event i, and it is such a breakdown. */
  predicate BrokenBy(events: seq<Event>, t: ThreadId, i: nat) {
    && i < |events| && BreaksDown(events[i]) && events[i].Of() == Some(t)
    && forall j :: i < j < |events| ==> events[j].Of() != Some(t)
  }

  predicate Down(s: System) {
    s.rt.state == Failed || s.rt.state == Stopping
  }

  lemma DownIsDown(s: System, e: Event)
    requires Enabled(s, e) && e.FailStep? && Apply(s, e).rt.state == Failed && s.rt.state != Failed
    ensures !Down(s)
  {
  }

  /** A call on a healthy server breaks only by such a step. */
  lemma BreakingStep(s: System, e: Event, t: ThreadId)
    requires Inv(s) && Enabled(s, e) && !Down(Apply(s, e))
    requires Apply(s, e).At(t) && Broken(Apply(s, e).threads[t])
    ensures !Down(s)
    ensures if e.Of() == Some(t) then BreaksDown(e) else s.At(t) && s.threads[t] == Apply(s, e).threads[t]
  {
    if Down(s) {
      DownStaysDown(s, e);
    }
    if e.Of() == Some(t) {
      FlightOf(s, t);
      OwnBreak(s, e, t);
    } else {
      OthersBreakNothing(s, e, t);
    }
  }

  lemma FlightOf(s: System, t: ThreadId)
    requires Inv(s)
    ensures ReadyInv(s.rt) && SessionInv(s.rt) && TrialInv(s.rt)
    ensures s.At(t) && InFlight(s.threads[t]) ==> FlightInv(s.rt, s.threads[t])
  {
  }

  lemma OwnBreak(s: System, e: Event, t: ThreadId)
    requires ReadyInv(s.rt) && SessionInv(s.rt) && TrialInv(s.rt) && !Down(s)
    requires s.At(t) && InFlight(s.threads[t]) ==> FlightInv(s.rt, s.threads[t])
    requires Enabled(s, e) && e.Of() == Some(t)
    requires Apply(s, e).At(t) && Broken(Apply(s, e).threads[t])
    ensures BreaksDown(e)
  {
    hide PrepareEnter, PrepareCommit, Admit, Respond, GiveUp, Fail, SessionRows;
  }

  lemma OthersBreakNothing(s: System, e: Event, t: ThreadId)
    requires Enabled(s, e) && e.Of() != Some(t) && Apply(s, e).At(t) && Broken(Apply(s, e).threads[t])
    ensures s.At(t) && s.threads[t] == Apply(s, e).threads[t]
  {
    if s.At(t) {
      CallsWearOut(s, e, t);
    } else {
      NewCallsAreWhole(s, e, t);
    }
  }

  lemma NewCallsAreWhole(s: System, e: Event, t: ThreadId)
    requires Enabled(s, e) && !s.At(t) && Apply(s, e).At(t)
    ensures !Broken(Apply(s, e).threads[t])
  {
    hide PrepareCommit, Admit, BackendInfer, RecordRow, Respond, GiveUp, Fail;
  }

  /** A run in which a call is under way has a last step. */
  lemma LastStep(disk: set<TrialId>, backend: Backend, events: seq<Event>, s: System, t: ThreadId)
    returns (before: System)
    requires Reaches(disk, backend, events, s) && s.At(t)
    ensures events != [] && Reaches(disk, backend, events[..|events| - 1], before)
    ensures Enabled(before, events[|events| - 1]) && s == Apply(before, events[|events| - 1]) && Inv(before)
  {
    assert events != [];
    before := Run(Start(disk, backend), events[..|events| - 1]).value;
    Reached(disk, backend, events[..|events| - 1], before);
  }

  lemma {:induction false} BreakdownCause(disk: set<TrialId>, backend: Backend, events: seq<Event>, s: System,
                                          t: ThreadId) returns (i: nat)
    requires Reaches(disk, backend, events, s) && s.At(t) && Broken(s.threads[t]) && !Down(s)
    ensures BrokenBy(events, t, i)
    decreases |events|
  {
    hide Inv, Apply, Enabled, Broken, Down, BreaksDown, Run, Reaches;
    var before := LastStep(disk, backend, events, s, t);
    var last := |events| - 1;
    BreakingStep(before, events[last], t);
    if events[last].Of() == Some(t) {
      i := last;
    } else {
      i := BreakdownCause(disk, backend, events[..last], before, t);
    }
  }

  lemma FaultsOnly(s: System, e: Event)
    requires LockInv(s) && PrepareInv(s) && SessionInv(s.rt) && TrialInv(s.rt) && Enabled(s, e)
    requires s.lock.Some? && InFlight(s.Holder()) ==> FlightInv(s.rt, s.Holder())
    requires Apply(s, e).rt.state == Failed && s.rt.state != Failed
    ensures IsFault(s, e)
  {
    if e.EndCall? || e.AbortEnter? || e.AmbiguousCall? || e.CloseCall? {
      EndingFaults(s, e);
    } else if e.InferRespond? {
      AnsweringNeverFails(s, e);
    } else {
      hide FlightInv;
      RunningFaults(s, e);
    }
  }

  lemma EndingFaults(s: System, e: Event)
    requires SessionInv(s.rt) && TrialInv(s.rt) && Enabled(s, e)
    requires (e.EndCall? || e.AbortEnter? || e.AmbiguousCall? || e.CloseCall?)
    requires Apply(s, e).rt.state == Failed && s.rt.state != Failed
    ensures IsFault(s, e)
  {
  }

  /** The session check after an inference can only fail once the runtime is down. */
  lemma AnsweringNeverFails(s: System, e: Event)
    requires LockInv(s) && SessionInv(s.rt) && Enabled(s, e) && e.InferRespond? && FlightInv(s.rt, s.threads[e.t])
    ensures Apply(s, e).rt.state == s.rt.state
  {
  }

  lemma RunningFaults(s: System, e: Event)
    requires LockInv(s) && PrepareInv(s) && Enabled(s, e)
    requires !e.EndCall? && !e.AbortEnter? && !e.AmbiguousCall? && !e.CloseCall? && !e.InferRespond?
    requires Apply(s, e).rt.state == Failed && s.rt.state != Failed
    ensures IsFault(s, e)
  {
  }

  /** After FAILED or STOPPING nothing is admitted, begun, opened or answered any more. */
  lemma FailedClosed(s: System, e: Event)
    requires Inv(s) && Enabled(s, e) && (s.rt.state == Failed || s.rt.state == Stopping)
    ensures var n := Apply(s, e);
      && (n.rt.state == Failed || n.rt.state == Stopping)
      && n.responses == s.responses
      && n.rt.session.None? && n.rt.leases.Keys == s.rt.leases.Keys
      && (n.rt.trial == s.rt.trial || n.rt.trial.None?)
      && n.rt.inFlight <= s.rt.inFlight
  {
    DownStaysDown(s, e);
    DownDoesNothing(s, e);
  }

  lemma DownStaysDown(s: System, e: Event)
    requires SessionInv(s.rt) && Enabled(s, e) && (s.rt.state == Failed || s.rt.state == Stopping)
    ensures var n := Apply(s, e);
      && (n.rt.state == Failed || n.rt.state == Stopping)
      && n.rt.session.None? && n.rt.leases.Keys == s.rt.leases.Keys
  {
    hide Begin, Record, End, Terminate, Locked;
  }

  lemma DownDoesNothing(s: System, e: Event)
    requires SessionInv(s.rt) && Enabled(s, e) && (s.rt.state == Failed || s.rt.state == Stopping)
    ensures var n := Apply(s, e);
      && n.responses == s.responses
      && (n.rt.trial == s.rt.trial || n.rt.trial.None?)
      && n.rt.inFlight <= s.rt.inFlight
  {
  }
}
