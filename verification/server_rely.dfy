/** What a caller of the server may rely on while other steps go on around its calls. */
module ServerRely {
  import opened CommonTypes
  import opened States
  import opened TrialAudit
  import opened RuntimeSpec
  import opened ServerSystem
  import opened ServerInvariant
  import opened ServerPreservation
  import opened ServerTheorems

  // ----- requests sent in one session -----

  predicate InferCall(pc: Pc) {
    InFlight(pc) || pc.InferWaiting? || pc.InferLocked?
  }

  /** Session `id` exists, and every request for it that has a row or still may get one is numbered below k. */
  ghost predicate Issued(s: System, id: SessionId, k: nat) {
    && id in s.rt.leases && |SessionRows(s.rt, id)| <= k
    && forall t :: s.At(t) && InferCall(s.threads[t]) && s.threads[t].req.session == id ==>
        s.threads[t].req.sequence < k
  }

  /** Every step but the arrival of a new request. */
  predicate AddsNoRequest(e: Event) {
    e.Call? ==> !e.first.InferWaiting?
  }

  lemma RequestsAreNotMadeUp(s: System, e: Event, t: ThreadId)
    requires Enabled(s, e) && Apply(s, e).At(t) && InferCall(Apply(s, e).threads[t])
    ensures (s.At(t) && InferCall(s.threads[t]) && s.threads[t].req == Apply(s, e).threads[t].req)
      || (!AddsNoRequest(e) && e.t == t && e.first == Apply(s, e).threads[t])
  {
  }

  // ----- leases and rows -----

  /** Leases are never forgotten, nor do they change whose they are. */
  ghost predicate SameLeases(r: Runtime, q: Runtime) {
    forall id :: id in r.leases ==>
      && id in q.leases
      && q.leases[id].trial == r.leases[id].trial && q.leases[id].skill == r.leases[id].skill
      && q.leases[id].generation == r.leases[id].generation
  }

  lemma EndingIsUntouched(s: System, e: Event)
    requires ControlInv(s) && Enabled(s, e) && (e.EndCall? || e.AbortEnter? || e.AmbiguousCall? || e.CloseCall?)
    ensures RowsUntouched(s, Apply(s, e))
  {
    match e
    case EndCall(_, _) => EndIsUntouched(s, e);
    case AbortEnter(_, _) => AbortIsUntouched(s, e);
    case AmbiguousCall(_, _, _) => AmbiguousIsUntouched(s, e);
    case CloseCall(_, _) => CloseIsUntouched(s, e);
  }

  lemma RecordingLeavesLeases(s: System, e: Event)
    requires Enabled(s, e) && e.InferRecord?
    ensures Apply(s, e).rt.leases == s.rt.leases && Apply(s, e).responses == s.responses
  {
  }

  lemma AnsweringKeepsLeases(s: System, e: Event)
    requires LockInv(s) && SessionInv(s.rt) && Enabled(s, e) && e.InferRespond?
    ensures SameLeases(s.rt, Apply(s, e).rt) && s.responses <= Apply(s, e).responses
    ensures Apply(s, e).rt.leases.Keys == s.rt.leases.Keys
  {
    hide Apply, LockInv, SessionInv, Excused;
    RespondEffect(s, e);
  }

  lemma OpeningAddsLease(s: System, e: Event)
    requires SessionInv(s.rt) && TrialInv(s.rt) && ManifestInv(s.rt.audit) && Enabled(s, e) && e.OpenCall?
    ensures SameLeases(s.rt, Apply(s, e).rt) && s.responses <= Apply(s, e).responses
  {
    hide Apply, SessionInv, TrialInv, ManifestInv, Excused;
    OpenEffect(s, e);
  }

  lemma UntouchedKeepsLeases(s: System, n: System)
    requires RowsUntouched(s, n)
    ensures SameLeases(s.rt, n.rt) && s.responses <= n.responses && n.rt.leases.Keys == s.rt.leases.Keys
  {
  }

  lemma LeasesStay(s: System, e: Event)
    requires ControlInv(s) && ManifestInv(s.rt.audit) && Enabled(s, e)
    ensures SameLeases(s.rt, Apply(s, e).rt) && s.responses <= Apply(s, e).responses
    ensures !e.OpenCall? ==> Apply(s, e).rt.leases.Keys == s.rt.leases.Keys
  {
    hide Apply, Enabled, LockInv, FlightCount, SessionInv, TrialInv, ReadyInv, PrepareInv, ManifestInv, RowsUntouched,
      RowsUntouchedBut;
    if e.InferRecord? {
      RecordingLeavesLeases(s, e);
    } else if e.InferRespond? {
      AnsweringKeepsLeases(s, e);
    } else if e.BeginEnter? {
      BeginningKeepsLeases(s, e);
    } else if e.OpenCall? {
      OpeningAddsLease(s, e);
    } else {
      if Quiet(e) {
        QuietIsUntouched(s, e);
      } else {
        EndingIsUntouched(s, e);
      }
      UntouchedKeepsLeases(s, Apply(s, e));
    }
  }

  lemma BeginningKeepsLeases(s: System, e: Event)
    requires LockInv(s) && Enabled(s, e) && e.BeginEnter?
    ensures Apply(s, e).rt.leases == s.rt.leases && Apply(s, e).responses == s.responses
  {
    hide Apply;
    BeginEffect(s, e);
  }

  lemma OtherStepsWriteNoRow(s: System, e: Event)
    requires ControlInv(s) && ManifestInv(s.rt.audit) && Enabled(s, e) && !e.InferRecord? && !e.BeginEnter?
    ensures Apply(s, e).rt.audit.rows == s.rt.audit.rows
  {
    hide Apply, Enabled, ControlInv, ManifestInv, Excused;
    if e.InferRespond? {
      RespondWritesNoRow(s, e);
    } else if e.OpenCall? {
      OpenWritesNoRow(s, e);
    } else if Quiet(e) {
      QuietIsUntouched(s, e);
    } else {
      EndingIsUntouched(s, e);
    }
  }

  lemma RespondWritesNoRow(s: System, e: Event)
    requires ControlInv(s) && Enabled(s, e) && e.InferRespond?
    ensures Apply(s, e).rt.audit.rows == s.rt.audit.rows
  {
    hide Apply;
    RespondEffect(s, e);
  }

  lemma OpenWritesNoRow(s: System, e: Event)
    requires ControlInv(s) && ManifestInv(s.rt.audit) && Enabled(s, e) && e.OpenCall?
    ensures Apply(s, e).rt.audit.rows == s.rt.audit.rows
  {
    hide Apply;
    OpenEffect(s, e);
  }

  /** The row that this step writes for session `id`, if any. */
  function RowWritten(s: System, e: Event, id: SessionId): seq<Row>
    requires Enabled(s, e)
  {
    if e.InferRecord? && s.threads[e.t].req.session == id && Apply(s, e).threads[e.t].InferRecorded?
    then [Apply(s, e).threads[e.t].row] else []
  }

  lemma RecordedRow(s: System, e: Event, id: SessionId)
    requires LockInv(s) && TrialInv(s.rt) && WorkInv(s) && Enabled(s, e) && e.InferRecord? && id in s.rt.leases
    ensures SessionRows(Apply(s, e).rt, id) == SessionRows(s.rt, id) + RowWritten(s, e, id)
  {
    var pc := s.threads[e.t];
    RecordingEffect(s, e);
    hide Apply, Enabled, OfSession, RowFor, LockInv;
    OfSessionAppend(s.rt.audit.RowsOf(pc.req.trial), RowFor(pc.req, pc.noise, pc.actions), id);
  }

  lemma RecordingEffect(s: System, e: Event)
    requires LockInv(s) && TrialInv(s.rt) && WorkInv(s) && Enabled(s, e) && e.InferRecord?
    ensures var n := Apply(s, e);
      var pc := s.threads[e.t];
      && n.At(e.t) && n.rt.leases == s.rt.leases
      && pc.req.session in s.rt.leases && s.rt.leases[pc.req.session].trial == pc.req.trial
      && if n.threads[e.t].InferRecorded?
         then n.threads[e.t].row == RowFor(pc.req, pc.noise, pc.actions)
           && n.rt.audit.rows == s.rt.audit.rows[pc.req.trial :=
                s.rt.audit.RowsOf(pc.req.trial) + [RowFor(pc.req, pc.noise, pc.actions)]]
         else n.rt.audit.rows == s.rt.audit.rows
  {
    assert FlightInv(s.rt, s.threads[e.t]);
  }

  lemma BegunRows(s: System, e: Event, id: SessionId)
    requires LockInv(s) && ManifestInv(s.rt.audit) && RowInv(s.rt) && Enabled(s, e) && e.BeginEnter?
    requires id in s.rt.leases
    ensures SessionRows(Apply(s, e).rt, id) == SessionRows(s.rt, id)
  {
    BeginEffect(s, e);
    var t := s.rt.leases[id].trial;
    assert t in s.rt.audit.manifests && t in s.rt.audit.rows;
    if Apply(s, e).rt.audit != s.rt.audit {
      var pc := s.threads[e.t];
      BeginKeepsManifests(s.rt.audit, pc.trial, s.rt.activeSkill.value, s.rt.generation, pc.seed, e.io.io);
    }
  }

  lemma SessionRowsStep(s: System, e: Event, id: SessionId)
    requires Inv(s) && Enabled(s, e) && id in s.rt.leases
    ensures SameLeases(s.rt, Apply(s, e).rt)
    ensures SessionRows(Apply(s, e).rt, id) == SessionRows(s.rt, id) + RowWritten(s, e, id)
  {
    hide Apply, Enabled, LockInv, FlightCount, SessionInv, TrialInv, ReadyInv, PrepareInv, LoadingInv, FlightInv,
      ManifestInv, RowInv, NoiseInv, SequenceInv, AnswersInv, OfSession;
    LeasesStay(s, e);
    if e.InferRecord? {
      RecordedRow(s, e, id);
    } else if e.BeginEnter? {
      BegunRows(s, e, id);
    } else {
      OtherStepsWriteNoRow(s, e);
    }
  }

  lemma WrittenRowWasRequested(s: System, e: Event, id: SessionId, k: nat)
    requires Inv(s) && Enabled(s, e) && Issued(s, id, k)
    ensures |SessionRows(s.rt, id)| + |RowWritten(s, e, id)| <= k
  {
    if RowWritten(s, e, id) != [] {
      assert FlightInv(s.rt, s.threads[e.t]);
    }
  }

  lemma IssuedStep(s: System, e: Event, id: SessionId, k: nat)
    requires Inv(s) && Enabled(s, e) && Issued(s, id, k)
    requires AddsNoRequest(e) || e.first.req.session != id || e.first.req.sequence < k
    ensures Issued(Apply(s, e), id, k)
  {
    SessionRowsStep(s, e, id);
    WrittenRowWasRequested(s, e, id, k);
    var n := Apply(s, e);
    forall t | n.At(t) && InferCall(n.threads[t]) && n.threads[t].req.session == id
        ensures n.threads[t].req.sequence < k {
      RequestsAreNotMadeUp(s, e, t);
    }
  }

  // ----- what every stretch of a run keeps -----

  /** Whatever happened, nothing on record was lost, and no request was made that was not made before:
      except for request `number` of session `asker`, when there is one. */
  ghost predicate Grown(s: System, n: System, asker: Option<SessionId>, number: nat) {
    && Inv(n)
    && DiskGrows(s.rt.audit, n.rt.audit) && SameLeases(s.rt, n.rt) && s.responses <= n.responses
    && (forall id, k: nat :: Issued(s, id, k) && (asker != Some(id) || number < k) ==> Issued(n, id, k))
  }

  predicate Requests(e: Event, asker: Option<SessionId>, number: nat) {
    AddsNoRequest(e) || (asker == Some(e.first.req.session) && number == e.first.req.sequence)
  }

  lemma GrownStep(s: System, e: Event, asker: Option<SessionId>, number: nat)
    requires Inv(s) && Enabled(s, e) && Requests(e, asker, number)
    ensures Grown(s, Apply(s, e), asker, number)
  {
    InvKept(s, e);
    StepGrowsDisk(s, e);
    LeasesStay(s, e);
    forall id, k: nat | Issued(s, id, k) && (asker != Some(id) || number < k) ensures Issued(Apply(s, e), id, k) {
      IssuedStep(s, e, id, k);
    }
  }

  lemma GrownTrans(s: System, m: System, n: System, asker: Option<SessionId>, number: nat)
    requires Grown(s, m, asker, number) && Grown(m, n, asker, number)
    ensures Grown(s, n, asker, number)
  {
    hide Issued, Inv;
  }

  lemma GrownMore(s: System, n: System, asker: Option<SessionId>, number: nat)
    requires Grown(s, n, None, 0)
    ensures Grown(s, n, asker, number)
  {
    hide Issued, Inv;
  }

  lemma GrownSelf(s: System)
    requires Inv(s)
    ensures Grown(s, s, None, 0)
  {
  }

  // ----- what others may do meanwhile -----

  /** A thread that no control command runs: a request, its last step, or the shutdown. */
  predicate InferSide(pc: Pc) {
    InferCall(pc) || pc.Releasing? || pc.Closing?
  }

  /** No control command is in progress but the one of thread `mine`, and every request names a session that exists. */
  ghost predicate Quiescent(s: System, mine: Option<ThreadId>) {
    forall t :: s.At(t) ==>
      && (Some(t) != mine ==> InferSide(s.threads[t]))
      && (InferCall(s.threads[t]) ==> s.threads[t].req.session in s.rt.leases)
  }

  /** The steps of the rest of the world while thread `mine` stands still: requests already sent,
      the report of a response that could not be delivered, and a shutdown of the server. */
  predicate Foreign(s: System, e: Event, mine: Option<ThreadId>) {
    && Enabled(s, e)
    && ((e.Of().Some? && e.Of() != mine) || e.AmbiguousCall? || (e.CloseCall? && Some(e.t) != mine))
  }

  predicate Up(r: Runtime) {
    r.state != Failed && r.state != Stopping
  }

  /** The fields a control command works on are left alone, or the session is gone; a trial goes only with the
      server. */
  ghost predicate Calm(s: System, n: System) {
    && n.rt.activeSkill == s.rt.activeSkill && n.rt.generation == s.rt.generation
    && (n.rt.session == s.rt.session || n.rt.session.None?)
    && (n.rt.trial == s.rt.trial || (n.rt.trial.None? && !Up(n.rt)))
    && (n.rt.state == s.rt.state || !Up(n.rt))
    && n.rt.audit.directories == s.rt.audit.directories
    && n.rt.leases.Keys == s.rt.leases.Keys
  }

  /** The two foreign steps that may take a trial away. */
  predicate Disturbs(e: Event) {
    e.AmbiguousCall? || e.CloseCall?
  }

  lemma ForeignIsCalm(s: System, e: Event, mine: Option<ThreadId>)
    requires LockInv(s) && SessionInv(s.rt) && TrialInv(s.rt) && Quiescent(s, mine) && Foreign(s, e, mine)
    ensures Calm(s, Apply(s, e))
    ensures AddsNoRequest(e)
    ensures Disturbs(e) || Apply(s, e).rt.trial == s.rt.trial
  {
    if Disturbs(e) {
      EndingIsCalm(s, e);
    } else {
      assert InferSide(s.threads[e.t]);
      hide Apply;
      if LockStep(e) {
        LockApplies(s, e);
        LockStepIsCalm(s, e);
      } else if InferStep(e) {
        InferApplies(s, e);
        InferStepIsCalm(s, e);
      } else {
        EndingApplies(s, e);
      }
    }
  }

  lemma EndingIsCalm(s: System, e: Event)
    requires SessionInv(s.rt) && TrialInv(s.rt) && Enabled(s, e) && Disturbs(e)
    ensures Calm(s, Apply(s, e))
  {
    EndingApplies(s, e);
    hide Apply;
  }

  lemma LockStepIsCalm(s: System, e: Event)
    requires SessionInv(s.rt) && Enabled(s, e) && LockStep(e) && !e.Call?
    ensures Calm(s, ApplyLock(s, e)) && ApplyLock(s, e).rt.trial == s.rt.trial
  {
  }

  lemma InferStepIsCalm(s: System, e: Event)
    requires LockInv(s) && SessionInv(s.rt) && Enabled(s, e) && InferStep(e)
    ensures Calm(s, ApplyInfer(s, e)) && ApplyInfer(s, e).rt.trial == s.rt.trial
  {
  }

  /** The other threads stay requests, and thread `mine` stays where it is. */
  ghost predicate Bystanders(s: System, n: System, mine: Option<ThreadId>) {
    && (forall t :: n.At(t) && Some(t) != mine ==> InferSide(n.threads[t]))
    && (mine.Some? ==> n.At(mine.value) == s.At(mine.value))
    && (mine.Some? && s.At(mine.value) ==> n.threads[mine.value] == s.threads[mine.value])
  }

  lemma ForeignLockStep(s: System, e: Event, mine: Option<ThreadId>)
    requires Quiescent(s, mine) && Enabled(s, e) && LockStep(e) && e.Of().Some? && e.Of() != mine
    ensures Bystanders(s, ApplyLock(s, e), mine)
  {
    hide GiveUp, Fail;
  }

  lemma ForeignInferStep(s: System, e: Event, mine: Option<ThreadId>)
    requires Quiescent(s, mine) && Enabled(s, e) && InferStep(e) && e.Of() != mine
    ensures Bystanders(s, ApplyInfer(s, e), mine)
  {
    hide Admit, BackendInfer, RecordRow, Respond, RowFor;
  }

  lemma ForeignEndingStep(s: System, e: Event, mine: Option<ThreadId>)
    requires Quiescent(s, mine) && Foreign(s, e, mine) && EndingStep(e)
    ensures Bystanders(s, ApplyEnding(s, e), mine)
  {
    hide RuntimeSpec.Close, MarkAmbiguous, RuntimeSpec.Abort, RuntimeSpec.EndTrial;
  }

  lemma ForeignThreads(s: System, e: Event, mine: Option<ThreadId>)
    requires Quiescent(s, mine) && Foreign(s, e, mine)
    ensures Bystanders(s, Apply(s, e), mine)
  {
    hide Bystanders, ApplyLock, ApplyInfer, ApplyPrepare, ApplySession, ApplyEnding;
    ForeignKinds(s, e, mine);
    if LockStep(e) {
      ForeignLockStep(s, e, mine);
    } else if InferStep(e) {
      ForeignInferStep(s, e, mine);
    } else {
      ForeignEndingStep(s, e, mine);
    }
  }

  lemma ForeignKinds(s: System, e: Event, mine: Option<ThreadId>)
    requires Quiescent(s, mine) && Foreign(s, e, mine)
    ensures LockStep(e) || InferStep(e) || EndingStep(e)
  {
    var t := e.Of();
    assert t.Some? && t != mine ==> InferSide(s.threads[t.value]);
  }

  lemma SessionsExist(s: System, e: Event, mine: Option<ThreadId>)
    requires Inv(s) && Enabled(s, e) && Quiescent(s, mine)
    requires !AddsNoRequest(e) ==> e.first.req.session in s.rt.leases
    ensures forall t :: Apply(s, e).At(t) && InferCall(Apply(s, e).threads[t]) ==>
      Apply(s, e).threads[t].req.session in Apply(s, e).rt.leases
  {
    LeasesStay(s, e);
    forall t | Apply(s, e).At(t) && InferCall(Apply(s, e).threads[t]) ensures Apply(s,
        e).threads[t].req.session in Apply(s, e).rt.leases {
      RequestsAreNotMadeUp(s, e, t);
    }
  }

  // ----- the steps of one control command -----

  /** The steps thread `mine` takes for a control command, or a command that needs no thread. */
  predicate Own(e: Event, mine: Option<ThreadId>) {
    || (mine.Some? && e.Of() == mine)
    || ((e.Call? || e.PrepareCall?) && Some(e.t) == mine)
    || e.OpenCall? || e.CloseSessionCall? || e.EndCall?
  }

  lemma OwnThreads(s: System, e: Event, mine: Option<ThreadId>)
    requires Enabled(s, e) && Quiescent(s, mine) && Own(e, mine)
    ensures forall t :: Apply(s, e).At(t) && Some(t) != mine ==> InferSide(Apply(s, e).threads[t])
  {
  }

  lemma EndOfCommand(s: System, mine: ThreadId)
    requires Quiescent(s, Some(mine)) && !s.At(mine)
    ensures Quiescent(s, None)
  {
  }

  /** Only begin_trial opens a trial or a directory, and only an ending step ends one. */
  lemma OnlyBeginOpensTrials(s: System, e: Event)
    requires LockInv(s) && SessionInv(s.rt) && TrialInv(s.rt) && Enabled(s, e) && !e.BeginEnter?
    ensures Apply(s, e).rt.trial == s.rt.trial || (EndingStep(e) && Apply(s, e).rt.trial.None?)
    ensures Apply(s, e).rt.audit.directories == s.rt.audit.directories
  {
    if EndingStep(e) {
      EndingOpensNoTrial(s, e);
    } else if LockStep(e) {
      LockStepKeepsTrial(s, e);
    } else if InferStep(e) {
      InferStepKeepsTrial(s, e);
    } else if PrepareStep(e) {
      PrepareStepKeepsTrial(s, e);
    } else {
      SessionStepKeepsTrial(s, e);
    }
  }

  /** The step leaves the trial and the directories alone. */
  predicate KeepsTrial(s: System, n: System) {
    n.rt.trial == s.rt.trial && n.rt.audit.directories == s.rt.audit.directories
  }

  lemma LockStepKeepsTrial(s: System, e: Event)
    requires Enabled(s, e) && LockStep(e)
    ensures KeepsTrial(s, Apply(s, e)) && SamePolicy(s, Apply(s, e))
  {
    LockApplies(s, e);
    hide Apply;
  }

  lemma InferStepKeepsTrial(s: System, e: Event)
    requires Enabled(s, e) && InferStep(e)
    ensures KeepsTrial(s, Apply(s, e)) && SamePolicy(s, Apply(s, e))
  {
    InferApplies(s, e);
    hide Apply;
  }

  lemma PrepareStepKeepsTrial(s: System, e: Event)
    requires Enabled(s, e) && PrepareStep(e)
    ensures KeepsTrial(s, Apply(s, e)) && (!e.PrepareDone? ==> SamePolicy(s, Apply(s, e)))
  {
    PrepareApplies(s, e);
    forall skill ensures SamePolicyOf(s.rt, PrepareEnter(s.rt, skill).0)
      && PrepareCommit(s.rt, skill).0.trial == s.rt.trial && PrepareCommit(s.rt, skill).0.audit == s.rt.audit
    {
      EntryKeepsPolicy(s.rt, skill);
    }
    assert SamePolicyOf(s.rt, PrepareDrained(s.rt).0) && SamePolicyOf(s.rt, Fail(s.rt, InferenceTimeout)) by {
      EntryKeepsPolicy(s.rt, "");
    }
    hide Apply, PrepareEnter, PrepareDrained, PrepareCommit, Fail;
  }

  predicate SamePolicyOf(r: Runtime, q: Runtime) {
    && q.activeSkill == r.activeSkill && q.generation == r.generation
    && q.trial == r.trial && q.audit == r.audit
  }

  lemma EntryKeepsPolicy(r: Runtime, skill: Skill)
    ensures SamePolicyOf(r, PrepareEnter(r, skill).0) && SamePolicyOf(r, PrepareDrained(r).0)
    ensures SamePolicyOf(r, Fail(r, InferenceTimeout))
    ensures PrepareCommit(r, skill).0.trial == r.trial && PrepareCommit(r, skill).0.audit == r.audit
  {
  }

  lemma SessionStepKeepsTrial(s: System, e: Event)
    requires Enabled(s, e) && SessionStep(e)
    ensures (!e.BeginEnter? ==> KeepsTrial(s, Apply(s, e))) && SamePolicy(s, Apply(s, e))
  {
    SessionApplies(s, e);
    hide Apply;
  }

  lemma EndingOpensNoTrial(s: System, e: Event)
    requires LockInv(s) && SessionInv(s.rt) && TrialInv(s.rt) && Enabled(s, e) && EndingStep(e)
    ensures Apply(s, e).rt.trial == s.rt.trial || Apply(s, e).rt.trial.None?
    ensures Apply(s, e).rt.audit.directories == s.rt.audit.directories
  {
    EndingKeepsPolicy(s, e);
    hide Apply, SessionInv, TrialInv, RowsUntouched;
    match e
    case EndCall(_, _) => EndIsUntouched(s, e);
    case AbortEnter(_, _) => AbortIsUntouched(s, e);
    case AmbiguousCall(_, _, _) => AmbiguousIsUntouched(s, e);
    case CloseCall(_, _) => CloseIsUntouched(s, e);
    case CloseBackend(_) => EndingApplies(s, e);
  }

  lemma EndingKeepsPolicy(s: System, e: Event)
    requires Enabled(s, e) && EndingStep(e)
    ensures Apply(s, e).rt.trial == s.rt.trial || Apply(s, e).rt.trial.None?
    ensures SamePolicy(s, Apply(s, e))
  {
    EndingApplies(s, e);
    forall w: bool, v: bool ensures KeepsPolicy(s.rt, EndTrial(s.rt, w, v).0) {
      EndsKeepPolicy(s.rt, w, v, "", 0);
    }
    forall w: bool ensures KeepsPolicy(s.rt, Abort(s.rt, w).0) && KeepsPolicy(s.rt, Close(s.rt, w)) {
      EndsKeepPolicy(s.rt, w, w, "", 0);
    }
    forall id, k, w: bool ensures KeepsPolicy(s.rt, MarkAmbiguous(s.rt, id, k, w).0) {
      EndsKeepPolicy(s.rt, w, w, id, k);
    }
    hide Apply, EndTrial, Abort, Close, MarkAmbiguous;
  }

  predicate KeepsPolicy(r: Runtime, q: Runtime) {
    q.activeSkill == r.activeSkill && q.generation == r.generation && q.trial in {r.trial, None}
  }

  lemma EndsKeepPolicy(r: Runtime, w: bool, v: bool, id: SessionId, k: nat)
    ensures KeepsPolicy(r, EndTrial(r, w, v).0) && KeepsPolicy(r, Abort(r, w).0) && KeepsPolicy(r, Close(r, w))
    ensures KeepsPolicy(r, MarkAmbiguous(r, id, k, w).0)
  {
    hide End, Terminate;
  }

  predicate SamePolicy(s: System, n: System) {
    n.rt.activeSkill == s.rt.activeSkill && n.rt.generation == s.rt.generation
  }

  /** Only prepare_skill changes the policy and its generation. */
  lemma OnlyPrepareChangesPolicy(s: System, e: Event)
    requires Enabled(s, e) && !e.PrepareDone?
    ensures SamePolicy(s, Apply(s, e))
  {
    if EndingStep(e) {
      EndingKeepsPolicy(s, e);
    } else if LockStep(e) {
      LockStepKeepsTrial(s, e);
    } else if InferStep(e) {
      InferStepKeepsTrial(s, e);
    } else if PrepareStep(e) {
      PrepareStepKeepsTrial(s, e);
    } else {
      SessionStepKeepsTrial(s, e);
    }
  }

  // ----- at rest -----

  /** Between control commands a server without a trial has no session, and it is ready, down, or was never prepared. */
  lemma ServerAtRest(s: System)
    requires Inv(s) && Quiescent(s, None) && s.rt.trial.None?
    ensures s.rt.session.None?
    ensures s.rt.state in {Starting, Ready, Failed, Stopping}
    ensures s.rt.state == Starting ==> s.rt.generation == 0
  {
    hide LockInv, FlightCount, SessionInv, TrialInv, ReadyInv, PrepareInv, LoadingInv, WorkInv, LogInv, Quiescent;
    RuntimeAtRest(s);
  }

  lemma RuntimeAtRest(s: System)
    requires SessionInv(s.rt) && ReadyInv(s.rt) && LoadingInv(s) && Quiescent(s, None) && s.rt.trial.None?
    ensures s.rt.session.None?
    ensures s.rt.state in {Starting, Ready, Failed, Stopping}
    ensures s.rt.state == Starting ==> s.rt.generation == 0
  {
  }

  /** Something that takes the server down: a fault of its own, or its shutdown. */
  predicate TakesDown(s: System, e: Event)
    requires Enabled(s, e)
  {
    IsFault(s, e) || e.CloseCall?
  }

  lemma OnlyCloseStops(s: System, e: Event)
    requires SessionInv(s.rt) && Enabled(s, e) && !e.CloseCall? && s.rt.state != Stopping
    ensures Apply(s, e).rt.state != Stopping
  {
    hide Begin, Record, End, Terminate, Locked, InFlight, HoldsLock, Preparing;
  }

  /** A server that nothing has taken down is up. */
  lemma StaysUp(s: System, e: Event)
    requires Inv(s) && Enabled(s, e) && Up(s.rt) && !TakesDown(s, e)
    ensures Up(Apply(s, e).rt)
  {
    hide Apply, IsFault, Enabled, FlightCount, SessionInv, TrialInv, ReadyInv, PrepareInv, LoadingInv, LogInv,
      FlightInv, KeyInv;
    OnlyCloseStops(s, e);
    if Apply(s, e).rt.state == Failed {
      FaultsOnly(s, e);
    }
  }

  // ----- logs of a run -----

  lemma RunMore(s: System, events: seq<Event>, e: Event)
    requires Run(s, events).Some? && Enabled(Run(s, events).value, e)
    ensures Run(s, events + [e]) == Some(Apply(Run(s, events).value, e))
  {
    assert (events + [e])[..|events|] == events;
  }

  /** The run starts up and no event in it takes the server down. */
  ghost predicate Healthy(s: System, events: seq<Event>)
    decreases |events|
  {
    if events == [] then Up(s.rt)
    else
      var last := |events| - 1;
      var before := Run(s, events[..last]);
      && Healthy(s, events[..last])
      && before.Some? && Enabled(before.value, events[last]) && !TakesDown(before.value, events[last])
  }

  lemma {:induction false} HealthyIsUp(s: System, events: seq<Event>)
    requires Inv(s) && Run(s, events).Some? && Healthy(s, events)
    ensures Up(Run(s, events).value.rt)
    decreases |events|
  {
    if events != [] {
      var last := |events| - 1;
      HealthyIsUp(s, events[..last]);
      RunInv(s, events[..last]);
      StaysUp(Run(s, events[..last]).value, events[last]);
    }
  }

  /** From event `from` on, a response could not be delivered or the server was shut down. */
  predicate Disturbed(events: seq<Event>, from: nat) {
    exists i :: from <= i < |events| && Disturbs(events[i])
  }

  /** A live trial ends only by end_trial, abort, the report of an undelivered response, or a shutdown. */
  lemma {:induction false} TrialsEndOnPurpose(s: System, events: seq<Event>)
    requires Inv(s) && Run(s, events).Some? && s.rt.trial.Some?
    requires forall i :: 0 <= i < |events| ==> !EndingStep(events[i]) || events[i].CloseBackend?
    ensures Run(s, events).value.rt.trial == s.rt.trial
    decreases |events|
  {
    if events != [] {
      var last := |events| - 1;
      TrialsEndOnPurpose(s, events[..last]);
      RunInv(s, events[..last]);
      LiveTrialStays(Run(s, events[..last]).value, events[last]);
    }
  }

  lemma LiveTrialStays(s: System, e: Event)
    requires Inv(s) && Enabled(s, e) && s.rt.trial.Some? && (!EndingStep(e) || e.CloseBackend?)
    ensures Apply(s, e).rt.trial == s.rt.trial
  {
    if e.BeginEnter? {
      SessionApplies(s, e);
      hide Apply, Inv;
    } else if e.CloseBackend? {
      EndingApplies(s, e);
      hide Apply, Inv;
    } else {
      hide Apply, Enabled, LogInv, WorkInv, LoadingInv, FlightCount, ReadyInv, PrepareInv;
      OnlyBeginOpensTrials(s, e);
    }
  }
}
