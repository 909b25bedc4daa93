/** Every event of the server system keeps the invariant. */
module ServerPreservation {
  import opened CommonTypes
  import opened States
  import opened TrialAudit
  import opened RuntimeSpec
  import opened ServerSystem
  import opened ServerInvariant

  // ----- the audit store on its own -----

  /** A trial begins in a store that has none, and has never heard of it. */
  lemma OpeningKeepsManifests(a: Store, t: ActiveTrial)
    requires ManifestInv(a) && a.active.None? && t.trial !in a.directories && t.requestCount == 0
    ensures ManifestInv(a.(active := Some(t),
                           directories := a.directories + {t.trial},
                           manifests := a.manifests[t.trial := [t.Entry(TrialActive, 0, None)]],
                           rows := a.rows[t.trial := []]))
  {
  }

  lemma BeginKeepsManifests(a: Store, trial: TrialId, skill: Skill, generation: nat, seed: int, io: BeginIo)
    requires ManifestInv(a)
    ensures ManifestInv(Begin(a, trial, skill, generation, seed, io).0)
    ensures BeginGrows(a, Begin(a, trial, skill, generation, seed, io).0)
  {
    assert a.manifests.Keys == a.rows.Keys <= a.directories;
    if a.active.None? && trial !in a.directories {
      OpeningKeepsManifests(a, ActiveTrial(trial, skill, generation, seed, 0, None, None));
      MoreDirectories(a, trial);
    }
    BeginAddsEmptyLog(a, trial, skill, generation, seed, io);
    hide ManifestInv, BeginGrows;
  }

  /** A begin keeps what was on disk; a log it adds is empty. */
  ghost predicate BeginGrows(a: Store, b: Store) {
    && a.manifests.Keys <= b.manifests.Keys
    && (forall t :: t in a.rows ==> t in b.rows && b.rows[t] == a.rows[t])
    && (forall t :: t in b.rows && t !in a.rows ==> b.rows[t] == [])
  }

  lemma BeginAddsEmptyLog(a: Store, trial: TrialId, skill: Skill, generation: nat, seed: int, io: BeginIo)
    requires a.rows.Keys <= a.directories
    ensures BeginGrows(a, Begin(a, trial, skill, generation, seed, io).0)
  {
  }

  lemma MoreDirectories(a: Store, trial: TrialId)
    requires ManifestInv(a)
    ensures ManifestInv(a.(directories := a.directories + {trial}))
  {
  }

  lemma BeginKeepsNoise(a: Store, trial: TrialId, skill: Skill, generation: nat, seed: int, io: BeginIo)
    requires NoiseInv(a) && a.manifests.Keys == a.rows.Keys && a.manifests.Keys <= a.directories
    ensures NoiseInv(Begin(a, trial, skill, generation, seed, io).0)
  {
  }

  lemma RowKeepsManifests(a: Store, row: Row)
    requires ManifestInv(a) && a.active.Some?
    ensures ManifestInv(WithRow(a, a.active.value, row))
  {
  }

  lemma RecordKeepsManifests(a: Store, row: Row, io: RecordIo)
    requires ManifestInv(a)
    ensures ManifestInv(Record(a, row, io).0)
  {
    if a.active.Some? {
      ChunkKeepsStore(a, a.active.value, row);
      RowKeepsManifests(WithChunk(a, a.active.value, row), row);
      hide ManifestInv, WithRow, WithChunk;
    }
  }

  lemma RowKeepsNoise(a: Store, row: Row)
    requires ManifestInv(a) && NoiseInv(a) && a.active.Some?
    requires row.noiseHash == OfNoise(KeyAfter(a.active.value.seed, a.active.value.requestCount))
    ensures NoiseInv(WithRow(a, a.active.value, row))
  {
  }

  lemma RecordKeepsNoise(a: Store, row: Row, io: RecordIo)
    requires ManifestInv(a) && NoiseInv(a)
    requires a.active.Some? ==>
      row.noiseHash == OfNoise(KeyAfter(a.active.value.seed, a.active.value.requestCount))
    ensures NoiseInv(Record(a, row, io).0)
  {
    if a.active.Some? {
      ChunkKeepsStore(a, a.active.value, row);
      RowKeepsNoise(WithChunk(a, a.active.value, row), row);
      hide ManifestInv, NoiseInv, WithRow, WithChunk;
    }
  }

  lemma ChunkKeepsStore(a: Store, t: ActiveTrial, row: Row)
    ensures var b := WithChunk(a, t, row);
      b == a.(chunks := b.chunks) && (ManifestInv(a) ==> ManifestInv(b)) && (NoiseInv(a) ==> NoiseInv(b))
  {
  }

  /** A row that is not written changes at most the first chunk's file. */
  lemma FailedRecordKeepsStore(a: Store, row: Row, io: RecordIo)
    requires ManifestInv(a) && NoiseInv(a) && Record(a, row, io).1.Raised?
    ensures var b := Record(a, row, io).0;
      ManifestInv(b) && NoiseInv(b) && b == a.(chunks := b.chunks)
  {
  }

  lemma EndKeepsStore(a: Store, summaryWritten: bool, manifestWritten: bool)
    requires ManifestInv(a) && NoiseInv(a)
    ensures var b := End(a, summaryWritten, manifestWritten).0;
      ManifestInv(b) && NoiseInv(b) && b.rows == a.rows && b.manifests.Keys == a.manifests.Keys
  {
    if a.active.Some? {
      var t := a.active.value;
      ClosingKeepsStore(a, t.Entry(Committed, t.requestCount, None));
    }
  }

  lemma TerminateKeepsStore(a: Store, status: TrialStatus, sequence: Option<nat>, written: bool)
    requires ManifestInv(a) && NoiseInv(a) && status != TrialActive
    ensures var b := Terminate(a, status, sequence, written).0;
      ManifestInv(b) && NoiseInv(b) && b.rows == a.rows && b.manifests.Keys == a.manifests.Keys
  {
    if a.active.Some? {
      var t := a.active.value;
      ClosingKeepsStore(a, t.Entry(status, t.requestCount, sequence));
    }
  }

  /** The terminal manifest of the active trial. */
  lemma ClosingKeepsStore(a: Store, entry: Manifest)
    requires ManifestInv(a) && NoiseInv(a) && a.active.Some?
    requires entry == a.active.value.Entry(entry.status, a.active.value.requestCount, entry.ambiguousSequence)
    requires entry.status != TrialActive
    ensures var t := a.active.value.trial;
      var b := a.(active := None, manifests := a.manifests[t := a.WritesOf(t) + [entry]]);
      ManifestInv(b) && NoiseInv(b) && b.manifests.Keys == a.manifests.Keys
  {
  }

  // ----- what the logs need from the rest -----

  /** Leases keep what the log refers to; a few may be new. */
  ghost predicate LeasesKept(r: Runtime, q: Runtime) {
    forall id :: id in r.leases ==>
      && id in q.leases
      && q.leases[id].trial == r.leases[id].trial && q.leases[id].skill == r.leases[id].skill
      && q.leases[id].generation == r.leases[id].generation && q.leases[id].nextSequence == r.leases[id].nextSequence
  }

  lemma RowsKept(r: Runtime, q: Runtime)
    requires RowInv(r) && LeasesKept(r, q) && r.audit.manifests.Keys <= q.audit.manifests.Keys
    requires forall id :: id in q.leases && id !in r.leases ==> q.leases[id].trial in q.audit.manifests
    requires forall t :: t in q.audit.rows ==> q.audit.RowsOf(t) == r.audit.RowsOf(t)
    ensures RowInv(q)
  {
    forall t, i | t in q.audit.rows && 0 <= i < |q.audit.rows[t]|
      ensures var row := q.audit.rows[t][i];
        row.trial == t && row.session in q.leases && q.leases[row.session].trial == t
        && row.skill == q.leases[row.session].skill && row.generation == q.leases[row.session].generation
    {
      assert t in r.audit.rows && r.audit.rows[t][i] == q.audit.rows[t][i];
    }
  }

  lemma SequenceKept(s: System, n: System, id: SessionId)
    requires id in s.rt.leases && SequenceInv(s, id)
    requires id in n.rt.leases && n.rt.leases[id].trial == s.rt.leases[id].trial
    requires n.rt.leases[id].nextSequence == s.rt.leases[id].nextSequence
    requires n.rt.audit.RowsOf(n.rt.leases[id].trial) == s.rt.audit.RowsOf(n.rt.leases[id].trial)
    requires n.responses == s.responses
    requires Excused(s, id) ==> Excused(n, id)
    ensures SequenceInv(n, id)
  {
  }

  /** The step leaves the rows, the responses and what the log knows of a lease alone. */
  ghost predicate RowsUntouched(s: System, n: System) {
    && n.rt.audit.rows == s.rt.audit.rows && n.responses == s.responses
    && LeasesKept(s.rt, n.rt) && n.rt.leases.Keys == s.rt.leases.Keys
    && (forall id :: id in s.rt.leases && Excused(s, id) ==> Excused(n, id))
  }

  lemma UntouchedKeepsLogs(s: System, n: System)
    requires LogInv(s) && RowsUntouched(s, n)
    requires ManifestInv(n.rt.audit) && NoiseInv(n.rt.audit) && n.rt.audit.manifests.Keys == s.rt.audit.manifests.Keys
    ensures LogInv(n)
  {
    RowsKept(s.rt, n.rt);
    forall id | id in n.rt.leases ensures SequenceInv(n, id) {
      SequenceKept(s, n, id);
    }
  }

  // ----- rows and responses grow at the end -----

  lemma OfSessionAppend(rows: seq<Row>, row: Row, id: SessionId)
    ensures OfSession(rows + [row], id) == OfSession(rows, id) + (if row.session == id then [row] else [])
  {
    assert (rows + [row])[..|rows|] == rows;
  }

  lemma AnsweredAppend(responses: seq<Response>, last: Response)
    ensures Answered(responses + [last]) == Answered(responses) + [last.row]
  {
  }

  // ----- which part of the step semantics applies -----

  lemma LockApplies(s: System, e: Event)
    requires Enabled(s, e) && LockStep(e)
    ensures Apply(s, e) == ApplyLock(s, e)
  {
  }

  lemma InferApplies(s: System, e: Event)
    requires Enabled(s, e) && InferStep(e)
    ensures Apply(s, e) == ApplyInfer(s, e)
  {
  }

  lemma PrepareApplies(s: System, e: Event)
    requires Enabled(s, e) && PrepareStep(e)
    ensures Apply(s, e) == ApplyPrepare(s, e)
  {
  }

  lemma SessionApplies(s: System, e: Event)
    requires Enabled(s, e) && SessionStep(e)
    ensures Apply(s, e) == ApplySession(s, e)
  {
  }

  lemma EndingApplies(s: System, e: Event)
    requires Enabled(s, e) && EndingStep(e)
    ensures Apply(s, e) == ApplyEnding(s, e)
  {
  }

  // ----- locks, threads, fields, the request in flight and the key: one lemma an event -----

  // ----- one thread moves -----

  /** The runtime's own fields stay right, and what preparations rely on stays. */
  ghost predicate FieldsFine(r: Runtime, q: Runtime) {
    && SessionInv(q) && TrialInv(q) && ReadyInv(q)
    && (q.trial == r.trial || q.trial.None? || (r.state == Ready && r.trial.None?))
    && (q.state == r.state || q.state == Failed || q.state == Stopping) && (r.state == Stopping ==> q.state == Stopping)
    && (r.state == Loading ==> q.backend == r.backend)
  }

  /** Thread t, which owns the lock, moves on with it; it is not in a preparation and does not enter one. */
  lemma OwnerMoves(s: System, n: System, t: ThreadId, pc: Pc)
    requires LockInv(s) && PrepareInv(s) && s.At(t) && HoldsLock(s.threads[t])
    requires n.lock == s.lock && n.threads == s.threads[t := pc] && HoldsLock(pc) && !Preparing(pc)
    requires FieldsFine(s.rt, n.rt)
    ensures LockInv(n) && PrepareInv(n)
  {
    hide SessionInv, TrialInv, ReadyInv;
  }

  lemma CallKeeps(s: System, e: Event)
    requires ControlInv(s) && WorkInv(s) && Enabled(s, e) && e.Call?
    ensures ControlInv(Apply(s, e)) && WorkInv(Apply(s, e))
  {
    LockApplies(s, e);
    hide Apply;
  }

  lemma AcquireKeeps(s: System, e: Event)
    requires ControlInv(s) && WorkInv(s) && Enabled(s, e) && e.Acquire?
    ensures ControlInv(Apply(s, e)) && WorkInv(Apply(s, e))
  {
    LockApplies(s, e);
    hide Apply;
  }

  lemma ReleaseKeeps(s: System, e: Event)
    requires ControlInv(s) && WorkInv(s) && Enabled(s, e) && e.Release?
    ensures ControlInv(Apply(s, e)) && WorkInv(Apply(s, e))
  {
    LockApplies(s, e);
    hide Apply;
  }

  lemma InferBackendControl(s: System, e: Event)
    requires ControlInv(s) && WorkInv(s) && Enabled(s, e) && e.InferBackend?
    ensures ControlInv(Apply(s, e))
  {
    InferApplies(s, e);
    hide Apply, FlightInv, KeyInv;
    FlightIsDown(s, s.threads[e.t]);
    OwnerMoves(s, Apply(s, e), e.t, Apply(s, e).threads[e.t]);
  }

  /** No preparation loads a policy while a request is in flight. */
  lemma FlightIsDown(s: System, pc: Pc)
    requires InFlight(pc) && s.lock.Some? && s.At(s.lock.value) && s.Holder() == pc && LockInv(s) && WorkInv(s)
    ensures s.rt.state != Loading
  {
  }

  lemma InferBackendKeeps(s: System, e: Event)
    requires ControlInv(s) && WorkInv(s) && Enabled(s, e) && e.InferBackend?
    ensures ControlInv(Apply(s, e)) && WorkInv(Apply(s, e))
  {
    InferApplies(s, e);
    hide Apply;
    InferBackendControl(s, e);
    hide ControlInv, SessionInv, ReadyInv, PrepareInv;
  }

  lemma RespondIsFine(r: Runtime, id: SessionId)
    requires SessionInv(r) && TrialInv(r) && ReadyInv(r)
    ensures var q := Respond(r, id).0; FieldsFine(r, q) && q.inFlight == r.inFlight
  {
  }

  lemma InferRespondKeepsWork(s: System, e: Event)
    requires ControlInv(s) && WorkInv(s) && Enabled(s, e) && e.InferRespond? && LockInv(Apply(s, e))
    ensures WorkInv(Apply(s, e))
  {
    InferApplies(s, e);
    hide Apply, ReadyInv, PrepareInv;
  }

  lemma InferRespondKeepsControl(s: System, e: Event)
    requires ControlInv(s) && Enabled(s, e) && e.InferRespond?
    ensures ControlInv(Apply(s, e))
  {
    InferApplies(s, e);
    RespondIsFine(s.rt, s.threads[e.t].req.session);
    hide Apply, Respond, SessionInv, TrialInv, ReadyInv, PrepareInv;
    OwnerMoves(s, Apply(s, e), e.t, Apply(s, e).threads[e.t]);
  }

  lemma InferLeaveKeeps(s: System, e: Event)
    requires ControlInv(s) && WorkInv(s) && Enabled(s, e) && e.InferLeave?
    ensures ControlInv(Apply(s, e)) && WorkInv(Apply(s, e))
  {
    InferApplies(s, e);
    hide Apply;
  }

  lemma PrepareBackendKeeps(s: System, e: Event)
    requires ControlInv(s) && WorkInv(s) && Enabled(s, e) && e.PrepareBackend?
    ensures ControlInv(Apply(s, e)) && WorkInv(Apply(s, e))
  {
    PrepareApplies(s, e);
    hide Apply;
  }

  lemma PrepareDoneKeeps(s: System, e: Event)
    requires ControlInv(s) && WorkInv(s) && Enabled(s, e) && e.PrepareDone?
    ensures ControlInv(Apply(s, e)) && WorkInv(Apply(s, e))
  {
    PrepareApplies(s, e);
    CommitIsFine(s.rt, s.threads[e.t].skill);
    PreparerLeaves(s, PrepareCommit(s.rt, s.threads[e.t].skill).0, e.t);
    hide Apply, PrepareEnter, PrepareDrained, PrepareCommit, SessionInv, ReadyInv, PrepareInv, FlightCount;
  }

  lemma CommitIsFine(r: Runtime, skill: Skill)
    requires SessionInv(r) && TrialInv(r) && ReadyInv(r) && r.trial.None?
    requires r.state == Loading || r.state == Failed || r.state == Stopping
    requires r.state == Loading ==> r.backend.prepared == Some(skill)
    ensures var q := PrepareCommit(r, skill).0;
      && SessionInv(q) && TrialInv(q) && ReadyInv(q) && q.inFlight == r.inFlight && q.trial == r.trial
      && (if r.state == Loading then q.state == Ready else q.state == r.state)
      && q.audit == r.audit && q.backend == r.backend
      && forall flight: Pc :: InFlight(flight) && FlightInv(r, flight) ==> r.state != Loading && FlightInv(q, flight)
  {
  }

  lemma PreparerLeaves(s: System, q: Runtime, t: ThreadId)
    requires LockInv(s) && FlightCount(s) && PrepareInv(s) && s.At(t) && s.threads[t].PrepareCommitting?
    requires SessionInv(q) && TrialInv(q) && ReadyInv(q) && q.inFlight == s.rt.inFlight
    requires s.rt.state == Stopping ==> q.state == Stopping
    ensures ControlInv(s.Without(t, q))
  {
    hide SessionInv, TrialInv, ReadyInv;
  }

  lemma BeginIsFine(r: Runtime, trial: TrialId, seed: int, io: BeginIos)
    requires SessionInv(r) && TrialInv(r) && ReadyInv(r)
    ensures var q := BeginTrial(r, trial, seed, io).0; FieldsFine(r, q) && q.inFlight == r.inFlight
  {
  }

  lemma BeginEnterKeepsControl(s: System, e: Event)
    requires ControlInv(s) && Enabled(s, e) && e.BeginEnter?
    ensures ControlInv(Apply(s, e))
  {
    SessionApplies(s, e);
    BeginIsFine(s.rt, s.threads[e.t].trial, s.threads[e.t].seed, e.io);
    hide Apply, RuntimeSpec.BeginTrial, SessionInv, TrialInv, ReadyInv, PrepareInv;
    OwnerMoves(s, Apply(s, e), e.t, Apply(s, e).threads[e.t]);
  }

  lemma BeginEnterKeepsWork(s: System, e: Event)
    requires LockInv(s) && TrialInv(s.rt) && WorkInv(s) && Enabled(s, e) && e.BeginEnter? && LockInv(Apply(s, e))
    ensures WorkInv(Apply(s, e))
  {
    SessionApplies(s, e);
    hide Apply;
  }

  lemma OpenCallKeeps(s: System, e: Event)
    requires ControlInv(s) && WorkInv(s) && Enabled(s, e) && e.OpenCall?
    ensures ControlInv(Apply(s, e)) && WorkInv(Apply(s, e))
  {
    SessionApplies(s, e);
    hide Apply;
  }

  lemma CloseSessionCallKeeps(s: System, e: Event)
    requires ControlInv(s) && WorkInv(s) && Enabled(s, e) && e.CloseSessionCall?
    ensures ControlInv(Apply(s, e)) && WorkInv(Apply(s, e))
  {
    SessionApplies(s, e);
    hide Apply;
  }

  lemma AbortIsFine(r: Runtime, written: bool)
    requires SessionInv(r) && TrialInv(r) && ReadyInv(r)
    ensures var q := Abort(r, written).0; FieldsFine(r, q) && q.inFlight == r.inFlight
  {
  }

  lemma AbortEnterKeepsControl(s: System, e: Event)
    requires ControlInv(s) && Enabled(s, e) && e.AbortEnter?
    ensures ControlInv(Apply(s, e))
  {
    EndingApplies(s, e);
    AbortIsFine(s.rt, e.written);
    hide Apply, RuntimeSpec.Abort, SessionInv, TrialInv, ReadyInv, PrepareInv;
    OwnerMoves(s, Apply(s, e), e.t, Releasing);
  }

  lemma AbortEnterKeepsWork(s: System, e: Event)
    requires ControlInv(s) && Enabled(s, e) && e.AbortEnter? && ControlInv(Apply(s, e))
    ensures WorkInv(Apply(s, e))
  {
    EndingApplies(s, e);
    hide Apply;
  }

  lemma CloseBackendKeeps(s: System, e: Event)
    requires ControlInv(s) && WorkInv(s) && Enabled(s, e) && e.CloseBackend?
    ensures ControlInv(Apply(s, e)) && WorkInv(Apply(s, e))
  {
    EndingApplies(s, e);
    var q := s.rt.(backend := s.rt.backend.(prepared := None));
    assert s.rt.state == Stopping;
    UnpreparedIsFine(s.rt);
    WaiterLeaves(s, q, e.t);
    hide Apply, SessionInv, TrialInv, ReadyInv, PrepareInv, FlightInv, EndTrial, Abort, MarkAmbiguous, Close;
  }

  lemma UnpreparedIsFine(r: Runtime)
    requires SessionInv(r) && TrialInv(r) && ReadyInv(r) && r.state == Stopping
    ensures var q := r.(backend := r.backend.(prepared := None));
      && FieldsFine(r, q)
      && forall flight: Pc :: InFlight(flight) && FlightInv(r, flight) ==> FlightInv(q, flight)
  {
  }

  lemma FailKeepsFields(r: Runtime, code: ErrorCode)
    requires SessionInv(r) && TrialInv(r) && ReadyInv(r)
    ensures var q := Fail(r, code);
      && SessionInv(q) && TrialInv(q) && ReadyInv(q) && q.inFlight == r.inFlight && q.trial == r.trial
      && q.state == (if r.state == Stopping then Stopping else Failed) && q.backend == r.backend
  {
  }

  /** A thread that owns nothing leaves. */
  lemma WaiterLeaves(s: System, q: Runtime, t: ThreadId)
    requires LockInv(s) && FlightCount(s) && PrepareInv(s) && s.At(t) && !HoldsLock(s.threads[t])
    requires FieldsFine(s.rt, q) && q.inFlight == s.rt.inFlight
    ensures ControlInv(s.Without(t, q))
  {
    hide SessionInv, TrialInv, ReadyInv;
  }

  lemma GivingUpIsFine(r: Runtime, pc: Pc)
    requires SessionInv(r) && TrialInv(r) && ReadyInv(r) && Waiting(pc)
    ensures FieldsFine(r, GiveUp(r, pc)) && GiveUp(r, pc).inFlight == r.inFlight
  {
    FailIsFine(r, InferenceBusy);
    FailIsFine(r, InferenceTimeout);
  }

  lemma BusyKeepsControl(s: System, e: Event)
    requires ControlInv(s) && Enabled(s, e) && e.Busy?
    ensures ControlInv(Apply(s, e))
  {
    LockApplies(s, e);
    GivingUpIsFine(s.rt, s.threads[e.t]);
    WaiterLeaves(s, GiveUp(s.rt, s.threads[e.t]), e.t);
    hide Apply, ControlInv, GiveUp;
  }

  lemma FailIsFine(r: Runtime, code: ErrorCode)
    requires SessionInv(r) && TrialInv(r) && ReadyInv(r)
    ensures var q := Fail(r, code); FieldsFine(r, q) && q.inFlight == r.inFlight
  {
    FailKeepsFields(r, code);
  }

  lemma FailStepKeepsControl(s: System, e: Event)
    requires ControlInv(s) && WorkInv(s) && Enabled(s, e) && e.FailStep?
    ensures ControlInv(Apply(s, e))
  {
    LockApplies(s, e);
    var pc := s.threads[e.t];
    FailIsFine(s.rt, if pc.InferBroken? then pc.code else PolicyFailed);
    hide Apply, Fail, SessionInv, TrialInv, ReadyInv, PrepareInv;
    OwnerMoves(s, Apply(s, e), e.t, Apply(s, e).threads[e.t]);
  }

  /** No preparation ever waits for in-flight work. */
  lemma NeverDraining(s: System, t: ThreadId)
    requires PrepareInv(s) && s.At(t)
    ensures !s.threads[t].PrepareDraining?
  {
  }

  lemma PrepareEnterKeepsFields(r: Runtime, skill: Skill)
    requires SessionInv(r) && TrialInv(r) && ReadyInv(r) && r.inFlight >= 0
    requires r.inFlight > 0 && r.state == Ready ==> r.session.Some?
    ensures var (q, entry) := PrepareEnter(r, skill);
      && SessionInv(q) && TrialInv(q) && ReadyInv(q) && !entry.MustDrain?
      && if entry.MayLoad?
         then q.state == Loading && q.trial.None? && q.inFlight == r.inFlight && r.state !in {Failed, Stopping, Loading}
         else q == r
  {
  }

  /** A preparation joins: nothing is in flight under READY, no trial is live, no other preparation runs. */
  lemma PreparationJoins(s: System, q: Runtime, t: ThreadId, skill: Skill)
    requires LockInv(s) && FlightCount(s) && PrepareInv(s) && !s.At(t)
    requires SessionInv(q) && TrialInv(q) && ReadyInv(q)
    requires q.state == Loading && q.trial.None? && q.inFlight == s.rt.inFlight
    requires s.rt.state !in {Failed, Stopping, Loading}
    ensures ControlInv(s.With(t, q, PrepareLoading(skill)))
  {
    hide SessionInv, TrialInv, ReadyInv;
  }

  lemma FlightNeedsSession(s: System)
    requires ControlInv(s) && WorkInv(s)
    ensures s.rt.inFlight >= 0 && (s.rt.inFlight > 0 && s.rt.state == Ready ==> s.rt.session.Some?)
  {
  }

  lemma PrepareCallKeepsControl(s: System, e: Event)
    requires ControlInv(s) && WorkInv(s) && Enabled(s, e) && e.PrepareCall?
    ensures ControlInv(Apply(s, e))
  {
    PrepareApplies(s, e);
    hide Apply;
    FlightNeedsSession(s);
    PrepareEnterKeepsFields(s.rt, e.skill);
    var (q, entry) := PrepareEnter(s.rt, e.skill);
    if entry.MayLoad? {
      PreparationJoins(s, q, e.t, e.skill);
    } else {
      assert s.threads - {e.t} == s.threads;
    }
    hide PrepareEnter, LockInv, FlightCount, SessionInv, TrialInv, ReadyInv, PrepareInv;
  }

  lemma EndCallKeepsControl(s: System, e: Event)
    requires ControlInv(s) && WorkInv(s) && Enabled(s, e) && e.EndCall?
    ensures ControlInv(Apply(s, e))
  {
    EndingApplies(s, e);
    hide Apply;
  }

  lemma AmbiguousCallKeepsControl(s: System, e: Event)
    requires ControlInv(s) && WorkInv(s) && Enabled(s, e) && e.AmbiguousCall?
    ensures ControlInv(Apply(s, e))
  {
    EndingApplies(s, e);
    MarkIsFine(s.rt, e.id, e.sequence, e.written);
    RuntimeMoves(s, MarkAmbiguous(s.rt, e.id, e.sequence, e.written).0);
    hide Apply, EndTrial, RuntimeSpec.Abort, MarkAmbiguous, Close, SessionInv, TrialInv, ReadyInv, PrepareInv;
  }

  lemma MarkIsFine(r: Runtime, id: SessionId, sequence: nat, written: bool)
    requires SessionInv(r) && TrialInv(r) && ReadyInv(r)
    ensures var q := MarkAmbiguous(r, id, sequence, written).0; FieldsFine(r, q) && q.inFlight == r.inFlight
  {
  }

  /** A call that takes no execution lock changes the runtime alone. */
  lemma RuntimeMoves(s: System, q: Runtime)
    requires LockInv(s) && FlightCount(s) && PrepareInv(s) && FieldsFine(s.rt, q) && q.inFlight == s.rt.inFlight
    ensures ControlInv(s.(rt := q))
  {
    hide SessionInv, TrialInv, ReadyInv;
  }

  lemma CloseKeepsLeases(r: Runtime, written: bool)
    requires SessionInv(r) && TrialInv(r)
    ensures var q := Close(r, written);
      && q.state == Stopping && q.inFlight == r.inFlight && q.backend == r.backend
      && q.session.None? && SessionInv(q) && LeasesKept(r, q) && q.leases.Keys == r.leases.Keys
  {
    InvalidatingKeeps(r);
    hide Terminate, TrialInv, Invalidate, SessionInv, LeasesKept;
  }

  /** Dropping the session leaves no active lease and keeps what the leases are about. */
  lemma InvalidatingKeeps(r: Runtime)
    requires SessionInv(r)
    ensures forall status :: status != Active ==>
      var q := Invalidate(r, status);
      && q == r.(session := None, leases := q.leases) && LeasesKept(r, q) && q.leases.Keys == r.leases.Keys
      && forall n: Runtime :: n.leases == q.leases && n.session.None? ==> SessionInv(n) && LeasesKept(r, n)
  {
  }

  lemma CloseKeepsFields(r: Runtime, written: bool)
    requires SessionInv(r) && TrialInv(r)
    ensures var q := Close(r, written);
      && SessionInv(q) && TrialInv(q) && ReadyInv(q) && q.state == Stopping && q.inFlight == r.inFlight
      && (q.trial.Some? ==> q.trial == r.trial && q.audit.active == r.audit.active)
      && q.backend == r.backend && q.audit.rows == r.audit.rows && q.session.None?
      && LeasesKept(r, q) && q.leases.Keys == r.leases.Keys
      && q.audit in {r.audit, Terminate(r.audit, TrialStatus.Aborted, None, written).0}
  {
    CloseKeepsLeases(r, written);
    hide SessionInv, LeasesKept;
  }

  lemma CloseCallKeepsControl(s: System, e: Event)
    requires ControlInv(s) && Enabled(s, e) && e.CloseCall?
    ensures ControlInv(Apply(s, e))
  {
    EndingApplies(s, e);
    hide Apply;
    CloseKeepsFields(s.rt, e.written);
    var q := Close(s.rt, e.written);
    StoppedKeepsControl(s, q, e.t);
  }

  /** A thread joins at `Closing` and the runtime stops. */
  lemma StoppedKeepsControl(s: System, q: Runtime, t: ThreadId)
    requires LockInv(s) && FlightCount(s) && PrepareInv(s) && !s.At(t)
    requires SessionInv(q) && TrialInv(q) && ReadyInv(q) && q.state == Stopping && q.inFlight == s.rt.inFlight
    requires q.trial.Some? ==> q.trial == s.rt.trial
    ensures ControlInv(s.With(t, q, Closing))
  {
  }

  lemma AdmitIsFine(r: Runtime, req: Request, expired: bool)
    requires SessionInv(r) && TrialInv(r) && ReadyInv(r)
    ensures var (q, admitted) := Admit(r, req, expired);
      FieldsFine(r, q) && q.inFlight == r.inFlight + if admitted.Returned? then 1 else 0
  {
  }

  lemma InferEnterKeepsControl(s: System, e: Event)
    requires ControlInv(s) && WorkInv(s) && Enabled(s, e) && e.InferEnter?
    ensures ControlInv(Apply(s, e))
  {
    InferApplies(s, e);
    AdmitIsFine(s.rt, s.threads[e.t].req, e.expired);
    hide Apply, Admit, SessionInv, TrialInv, ReadyInv, PrepareInv;
    OwnerMoves(s, Apply(s, e), e.t, Apply(s, e).threads[e.t]);
  }

  lemma RecordIsFine(r: Runtime, row: Row, io: RecordIo)
    requires SessionInv(r) && TrialInv(r) && ReadyInv(r)
    ensures var q := RecordRow(r, row, io).0; FieldsFine(r, q) && q.inFlight == r.inFlight
  {
  }

  lemma InferRecordKeepsControl(s: System, e: Event)
    requires ControlInv(s) && WorkInv(s) && Enabled(s, e) && e.InferRecord?
    ensures ControlInv(Apply(s, e))
  {
    InferApplies(s, e);
    var pc := s.threads[e.t];
    RecordIsFine(s.rt, RowFor(pc.req, pc.noise, pc.actions), e.disk);
    hide Apply, RecordRow, SessionInv, TrialInv, ReadyInv, PrepareInv;
    OwnerMoves(s, Apply(s, e), e.t, Apply(s, e).threads[e.t]);
  }

  /** What the key and the request in flight depend on stays; the runtime may only go down. */
  lemma GiveUpKeepsWork(r: Runtime, pc: Pc)
    requires Waiting(pc) && SessionInv(r)
    ensures var q := GiveUp(r, pc);
      && q.audit == r.audit && q.backend == r.backend && (q.state == Ready ==> q == r)
      && forall flight: Pc :: InFlight(flight) && FlightInv(r, flight) ==> FlightInv(q, flight)
  {
  }

  lemma BusyKeepsWork(s: System, e: Event)
    requires ControlInv(s) && WorkInv(s) && Enabled(s, e) && e.Busy? && ControlInv(Apply(s, e))
    ensures WorkInv(Apply(s, e))
  {
    LockApplies(s, e);
    GiveUpKeepsWork(s.rt, s.threads[e.t]);
    hide Apply, GiveUp, SessionInv, TrialInv, ReadyInv, PrepareInv, FlightCount, FlightInv;
  }

  lemma FailStepKeepsWork(s: System, e: Event)
    requires ControlInv(s) && WorkInv(s) && Enabled(s, e) && e.FailStep? && ControlInv(Apply(s, e))
    ensures WorkInv(Apply(s, e))
  {
    LockApplies(s, e);
    hide Apply;
  }

  lemma PrepareCallKeepsWork(s: System, e: Event)
    requires ControlInv(s) && WorkInv(s) && Enabled(s, e) && e.PrepareCall? && ControlInv(Apply(s, e))
    ensures WorkInv(Apply(s, e))
  {
    PrepareApplies(s, e);
    hide Apply;
  }

  lemma EndCallKeepsWork(s: System, e: Event)
    requires ControlInv(s) && WorkInv(s) && Enabled(s, e) && e.EndCall? && ControlInv(Apply(s, e))
    ensures WorkInv(Apply(s, e))
  {
    EndingApplies(s, e);
    hide Apply;
  }

  lemma AmbiguousCallKeepsWork(s: System, e: Event)
    requires ControlInv(s) && WorkInv(s) && Enabled(s, e) && e.AmbiguousCall? && ControlInv(Apply(s, e))
    ensures WorkInv(Apply(s, e))
  {
    EndingApplies(s, e);
    MarkKeepsWork(s.rt, e.id, e.sequence, e.written);
    hide Apply, EndTrial, Abort, MarkAmbiguous, Close, SessionInv, TrialInv, ReadyInv, PrepareInv, FlightCount,
      FlightInv;
  }

  lemma MarkKeepsWork(r: Runtime, id: SessionId, sequence: nat, written: bool)
    requires SessionInv(r) && TrialInv(r)
    ensures var q := MarkAmbiguous(r, id, sequence, written).0;
      && (q.state == Ready ==> q == r)
      && forall flight: Pc :: InFlight(flight) && FlightInv(r, flight) ==> FlightInv(q, flight)
  {
  }

  lemma CloseCallKeepsWork(s: System, e: Event)
    requires LockInv(s) && SessionInv(s.rt) && TrialInv(s.rt) && WorkInv(s) && Enabled(s, e) && e.CloseCall?
    requires LockInv(Apply(s, e))
    ensures WorkInv(Apply(s, e))
  {
    EndingApplies(s, e);
    hide Apply;
    CloseKeepsFields(s.rt, e.written);
    StoppedKeepsWork(s, Close(s.rt, e.written), e.t);
  }

  lemma StoppedKeepsWork(s: System, q: Runtime, t: ThreadId)
    requires LockInv(s) && WorkInv(s) && !s.At(t) && LockInv(s.With(t, q, Closing)) && TrialInv(s.rt) && TrialInv(q)
    requires q.state == Stopping && q.backend == s.rt.backend && q.audit.rows == s.rt.audit.rows && LeasesKept(s.rt, q)
    requires q.trial.Some? ==> q.trial == s.rt.trial && q.audit.active == s.rt.audit.active
    ensures WorkInv(s.With(t, q, Closing))
  {
  }

  lemma InferEnterKeepsWork(s: System, e: Event)
    requires LockInv(s) && SessionInv(s.rt) && TrialInv(s.rt) && KeyInv(s)
    requires s.rt.session.Some? ==> SequenceInv(s, s.rt.session.value)
    requires Enabled(s, e) && e.InferEnter? && LockInv(Apply(s, e))
    ensures WorkInv(Apply(s, e))
  {
    InferApplies(s, e);
    hide Apply;
  }

  /** What recording does to the flight, on the runtime alone. */
  lemma RecordKeepsFlight(r: Runtime, pc: Pc, io: RecordIo)
    requires pc.InferComputed? && FlightInv(r, pc) && TrialInv(r)
    ensures var row := RowFor(pc.req, pc.noise, pc.actions);
      var (q, recorded) := RecordRow(r, row, io);
      FlightInv(q, if recorded.Returned? then InferRecorded(pc.req, row, pc.actions)
                   else InferBroken(pc.req, recorded.code))
  {
    var row := RowFor(pc.req, pc.noise, pc.actions);
    RecordAddsRow(r, row, io);
    var (q, recorded) := RecordRow(r, row, io);
    if recorded.Returned? {
      assert r.audit.active.value.trial == pc.req.trial;
      OneMoreRow(r, q, row);
    }
    hide SessionRows, RowFor, RecordRow;
  }

  /** What recording does to the runtime. */
  lemma RecordAddsRow(r: Runtime, row: Row, io: RecordIo)
    ensures var (q, recorded) := RecordRow(r, row, io);
      && q == r.(audit := q.audit)
      && (recorded.Returned? ==>
            && r.audit.active.Some?
            && var trial := r.audit.active.value.trial;
               q.audit.rows == r.audit.rows[trial := r.audit.RowsOf(trial) + [row]])
      && (recorded.Raised? ==> q.audit.rows == r.audit.rows)
  {
  }

  lemma OneMoreRow(r: Runtime, q: Runtime, row: Row)
    requires row.session in r.leases && q.leases == r.leases
    requires var trial := r.leases[row.session].trial;
      q.audit.rows == r.audit.rows[trial := r.audit.RowsOf(trial) + [row]]
    ensures SessionRows(q, row.session) == SessionRows(r, row.session) + [row]
  {
    OfSessionAppend(r.audit.RowsOf(r.leases[row.session].trial), row, row.session);
  }

  lemma InferRecordKeepsWork(s: System, e: Event)
    requires LockInv(s) && TrialInv(s.rt) && WorkInv(s) && Enabled(s, e) && e.InferRecord? && LockInv(Apply(s, e))
    ensures WorkInv(Apply(s, e))
  {
    InferApplies(s, e);
    hide Apply;
    RecordKeepsFlight(s.rt, s.threads[e.t], e.disk);
  }

  // ----- the logs -----

  lemma CallIsQuiet(s: System, e: Event)
    requires LockInv(s) && SessionInv(s.rt) && Enabled(s, e) && e.Call?
    ensures RowsUntouched(s, Apply(s, e)) && Apply(s, e).rt.audit == s.rt.audit
  {
    LockApplies(s, e);
    hide Apply;
  }

  lemma AcquireIsQuiet(s: System, e: Event)
    requires LockInv(s) && SessionInv(s.rt) && Enabled(s, e) && e.Acquire?
    ensures RowsUntouched(s, Apply(s, e)) && Apply(s, e).rt.audit == s.rt.audit
  {
    LockApplies(s, e);
    hide Apply;
  }

  /** Of the runtime only the session and the state change, and not for the better. */
  ghost predicate Calmed(r: Runtime, q: Runtime) {
    && LeasesKept(r, q) && q.leases.Keys == r.leases.Keys && q.audit.rows == r.audit.rows
    && (q.session == r.session || q.session.None?)
    && (r.state == Failed || r.state == Stopping ==> q.state == Failed || q.state == Stopping)
  }

  lemma GiveUpCalms(r: Runtime, pc: Pc)
    requires SessionInv(r) && Waiting(pc)
    ensures Calmed(r, GiveUp(r, pc)) && GiveUp(r, pc).audit == r.audit
  {
  }

  lemma AbortCalms(r: Runtime, written: bool)
    requires SessionInv(r)
    ensures Calmed(r, Abort(r, written).0)
    ensures Abort(r, written).0.audit == Terminate(r.audit, TrialStatus.Aborted, None, written).0
  {
  }

  /** The owner of the lock, with no record of its own, is about to release it. */
  lemma OwnerCalms(s: System, q: Runtime, t: ThreadId)
    requires LockInv(s) && s.lock == Some(t) && s.At(t) && !s.threads[t].InferRecorded? && Calmed(s.rt, q)
    ensures RowsUntouched(s, s.With(t, q, Releasing))
  {
  }

  lemma BusyIsQuiet(s: System, e: Event)
    requires LockInv(s) && SessionInv(s.rt) && Enabled(s, e) && e.Busy?
    ensures RowsUntouched(s, Apply(s, e)) && Apply(s, e).rt.audit == s.rt.audit
  {
    LockApplies(s, e);
    GiveUpCalms(s.rt, s.threads[e.t]);
    hide Apply, GiveUp, SessionInv;
  }

  lemma ReleaseIsQuiet(s: System, e: Event)
    requires LockInv(s) && SessionInv(s.rt) && Enabled(s, e) && e.Release?
    ensures RowsUntouched(s, Apply(s, e)) && Apply(s, e).rt.audit == s.rt.audit
  {
    LockApplies(s, e);
    hide Apply;
  }

  lemma FailStepIsQuiet(s: System, e: Event)
    requires LockInv(s) && SessionInv(s.rt) && Enabled(s, e) && e.FailStep?
    ensures RowsUntouched(s, Apply(s, e)) && Apply(s, e).rt.audit == s.rt.audit
  {
    LockApplies(s, e);
    hide Apply;
  }

  lemma InferEnterIsQuiet(s: System, e: Event)
    requires LockInv(s) && SessionInv(s.rt) && Enabled(s, e) && e.InferEnter?
    ensures RowsUntouched(s, Apply(s, e)) && Apply(s, e).rt.audit == s.rt.audit
  {
    InferApplies(s, e);
    AdmitCalms(s.rt, s.threads[e.t].req, e.expired);
    hide Apply, Admit, BackendInfer, RecordRow, Respond, SessionInv;
  }

  lemma AdmitCalms(r: Runtime, req: Request, expired: bool)
    requires SessionInv(r)
    ensures Calmed(r, Admit(r, req, expired).0) && Admit(r, req, expired).0.audit == r.audit
  {
  }

  lemma InferBackendIsQuiet(s: System, e: Event)
    requires LockInv(s) && SessionInv(s.rt) && Enabled(s, e) && e.InferBackend?
    ensures RowsUntouched(s, Apply(s, e)) && Apply(s, e).rt.audit == s.rt.audit
  {
    InferApplies(s, e);
    hide Apply;
  }

  lemma InferLeaveIsQuiet(s: System, e: Event)
    requires LockInv(s) && SessionInv(s.rt) && Enabled(s, e) && e.InferLeave?
    ensures RowsUntouched(s, Apply(s, e)) && Apply(s, e).rt.audit == s.rt.audit
  {
    InferApplies(s, e);
    hide Apply;
  }

  lemma PrepareCallIsQuiet(s: System, e: Event)
    requires SessionInv(s.rt) && Enabled(s, e) && e.PrepareCall?
    ensures RowsUntouched(s, Apply(s, e)) && Apply(s, e).rt.audit == s.rt.audit
  {
    PrepareApplies(s, e);
    hide Apply;
  }

  lemma PrepareBackendIsQuiet(s: System, e: Event)
    requires LockInv(s) && SessionInv(s.rt) && Enabled(s, e) && e.PrepareBackend?
    ensures RowsUntouched(s, Apply(s, e)) && Apply(s, e).rt.audit == s.rt.audit
  {
    PrepareApplies(s, e);
    hide Apply;
  }

  lemma PrepareDoneIsQuiet(s: System, e: Event)
    requires LockInv(s) && SessionInv(s.rt) && Enabled(s, e) && e.PrepareDone?
    ensures RowsUntouched(s, Apply(s, e)) && Apply(s, e).rt.audit == s.rt.audit
  {
    PrepareApplies(s, e);
    hide Apply;
  }

  lemma CloseSessionCallIsQuiet(s: System, e: Event)
    requires LockInv(s) && SessionInv(s.rt) && Enabled(s, e) && e.CloseSessionCall?
    ensures RowsUntouched(s, Apply(s, e)) && Apply(s, e).rt.audit == s.rt.audit
  {
    SessionApplies(s, e);
    hide Apply;
  }

  lemma CloseBackendIsQuiet(s: System, e: Event)
    requires LockInv(s) && SessionInv(s.rt) && Enabled(s, e) && e.CloseBackend?
    ensures RowsUntouched(s, Apply(s, e)) && Apply(s, e).rt.audit == s.rt.audit
  {
    EndingApplies(s, e);
    hide Apply;
  }

  /** Recording appends one row, to the request's own session and trial. */
  lemma RecordGrowsOneSession(s: System, n: System, pc: Pc, other: SessionId)
    requires pc.InferComputed? && FlightInv(s.rt, pc)
    requires other in s.rt.leases && SequenceInv(s, other)
    requires n.rt.leases == s.rt.leases && n.responses == s.responses && n.rt.session == s.rt.session
    requires n.rt.state == s.rt.state
    requires RecordedFor(n, pc.req.session) && !RecordedFor(s, other)
    requires var row := RowFor(pc.req, pc.noise, pc.actions);
      n.rt.audit.rows == s.rt.audit.rows[pc.req.trial := s.rt.audit.RowsOf(pc.req.trial) + [row]]
    ensures SequenceInv(n, other)
  {
    RecordedSessionRows(s.rt, n.rt, pc, other);
    hide OfSession, Answered, RecordedFor, SessionRows;
  }

  lemma RecordedSessionRows(r: Runtime, q: Runtime, pc: Pc, other: SessionId)
    requires pc.InferComputed? && FlightInv(r, pc) && other in r.leases && q.leases == r.leases
    requires var row := RowFor(pc.req, pc.noise, pc.actions);
      q.audit.rows == r.audit.rows[pc.req.trial := r.audit.RowsOf(pc.req.trial) + [row]]
    ensures var row := RowFor(pc.req, pc.noise, pc.actions);
      SessionRows(q, other) == SessionRows(r, other) + if other == pc.req.session then [row] else []
  {
    OfSessionAppend(r.audit.RowsOf(pc.req.trial), RowFor(pc.req, pc.noise, pc.actions), other);
  }

  lemma RecordKeepsSequences(s: System, n: System, pc: Pc)
    requires pc.InferComputed? && FlightInv(s.rt, pc) && (forall id :: id in s.rt.leases ==> SequenceInv(s, id))
    requires n.rt.leases == s.rt.leases && n.responses == s.responses && n.rt.session == s.rt.session
    requires n.rt.state == s.rt.state
    requires RecordedFor(n, pc.req.session) && forall id :: !RecordedFor(s, id)
    requires var row := RowFor(pc.req, pc.noise, pc.actions);
      n.rt.audit.rows == s.rt.audit.rows[pc.req.trial := s.rt.audit.RowsOf(pc.req.trial) + [row]]
    ensures forall id :: id in n.rt.leases ==> SequenceInv(n, id)
  {
    forall other | other in n.rt.leases ensures SequenceInv(n, other) {
      RecordGrowsOneSession(s, n, pc, other);
    }
  }

  lemma RecordKeepsRows(r: Runtime, pc: Pc)
    requires pc.InferComputed? && FlightInv(r, pc) && TrialInv(r) && RowInv(r)
    ensures RowInv(RecordRow(r, RowFor(pc.req, pc.noise, pc.actions), RowWritten).0)
  {
  }

  lemma InferRecordKeepsLogs(s: System, n: System, pc: Pc, io: RecordIo)
    requires pc.InferComputed? && FlightInv(s.rt, pc) && TrialInv(s.rt) && LogInv(s)
    requires n.rt == RecordRow(s.rt, RowFor(pc.req, pc.noise, pc.actions), io).0 && n.responses == s.responses
    requires forall id :: !RecordedFor(s, id)
    requires RecordRow(s.rt, RowFor(pc.req, pc.noise, pc.actions), io).1.Returned? ==> RecordedFor(n, pc.req.session)
    ensures LogInv(n)
  {
    if RecordRow(s.rt, RowFor(pc.req, pc.noise, pc.actions), io).1.Raised? {
      hide LogInv, FlightInv, Excused, RecordedFor;
      FailedRecordKeepsLogs(s, n, RowFor(pc.req, pc.noise, pc.actions), io);
    } else {
      hide LogInv, FlightInv, RecordedFor;
      WrittenRecordKeepsLogs(s, n, pc);
    }
  }

  lemma FailedRecordKeepsLogs(s: System, n: System, row: Row, io: RecordIo)
    requires LogInv(s) && n.rt == RecordRow(s.rt, row, io).0 && n.responses == s.responses
    requires RecordRow(s.rt, row, io).1.Raised? && forall id :: !RecordedFor(s, id)
    ensures LogInv(n)
  {
    FailedRecordKeepsStore(s.rt.audit, row, io);
    FailedRecordTouchesNoRow(s, n, row, io);
    hide ManifestInv, NoiseInv, RowInv, SequenceInv, AnswersInv, Record, RowsUntouched;
    UntouchedKeepsLogs(s, n);
  }

  lemma FailedRecordTouchesNoRow(s: System, n: System, row: Row, io: RecordIo)
    requires n.rt == RecordRow(s.rt, row, io).0 && n.responses == s.responses
    requires RecordRow(s.rt, row, io).1.Raised? && forall id :: !RecordedFor(s, id)
    ensures RowsUntouched(s, n)
  {
  }

  lemma WrittenRecordKeepsLogs(s: System, n: System, pc: Pc)
    requires pc.InferComputed? && FlightInv(s.rt, pc) && TrialInv(s.rt) && LogInv(s) && s.rt.audit.active.Some?
    requires n.rt == RecordRow(s.rt, RowFor(pc.req, pc.noise, pc.actions), RowWritten).0 && n.responses == s.responses
    requires (forall id :: !RecordedFor(s, id)) && RecordedFor(n, pc.req.session)
    ensures LogInv(n)
  {
    var row := RowFor(pc.req, pc.noise, pc.actions);
    RecordedRows(s.rt, pc);
    hide RecordedFor, FlightInv, ManifestInv, NoiseInv, RowInv, SequenceInv, RowFor, WithRow, WithChunk;
    NoiseOfFlight(s.rt, pc);
    RecordKeepsManifests(s.rt.audit, row, RowWritten);
    RecordKeepsNoise(s.rt.audit, row, RowWritten);
    RecordKeepsRows(s.rt, pc);
    RecordKeepsSequences(s, n, pc);
  }

  lemma RecordedRows(r: Runtime, pc: Pc)
    requires pc.InferComputed? && FlightInv(r, pc) && TrialInv(r) && r.audit.active.Some?
    ensures var row := RowFor(pc.req, pc.noise, pc.actions);
      var q := RecordRow(r, row, RowWritten).0;
      && q.audit.rows == r.audit.rows[pc.req.trial := r.audit.RowsOf(pc.req.trial) + [row]]
      && q == r.(audit := q.audit)
  {
  }

  /** The row about to be recorded carries the noise of the trial's next split. */
  lemma NoiseOfFlight(r: Runtime, pc: Pc)
    requires pc.InferComputed? && FlightInv(r, pc) && r.audit.active.Some?
    ensures RowFor(pc.req, pc.noise, pc.actions).noiseHash
      == OfNoise(KeyAfter(r.audit.active.value.seed, r.audit.active.value.requestCount))
  {
  }

  /** Answering moves one lease on and adds one response, both of the row just recorded. */
  lemma AnswerGrowsOneSession(s: System, n: System, pc: Pc, other: SessionId)
    requires pc.InferRecorded? && FlightInv(s.rt, pc)
    requires other in s.rt.leases && SequenceInv(s, other) && (RecordedFor(s, other) ==> other == pc.req.session)
    requires n.rt.audit == s.rt.audit && other in n.rt.leases && n.rt.leases[other].trial == s.rt.leases[other].trial
    requires n.rt.session == s.rt.session && n.rt.state == s.rt.state
    requires var more := if other == pc.req.session then 1 else 0;
      n.rt.leases[other].nextSequence == s.rt.leases[other].nextSequence + more
    requires n.responses == s.responses + [Reply(pc.row, pc.actions)]
    ensures SequenceInv(n, other)
  {
    AnsweredAppend(s.responses, Reply(pc.row, pc.actions));
    OfSessionAppend(Answered(s.responses), pc.row, other);
  }

  /** Rows do not mention a lease's sequence number. */
  lemma RowsIgnoreSequence(r: Runtime, q: Runtime)
    requires RowInv(r) && q.audit == r.audit && q.leases.Keys == r.leases.Keys
    requires forall id :: id in r.leases ==>
      && q.leases[id].trial == r.leases[id].trial
      && q.leases[id].skill == r.leases[id].skill && q.leases[id].generation == r.leases[id].generation
    ensures RowInv(q)
  {
  }

  lemma InferRespondKeepsSequences(s: System, n: System, pc: Pc)
    requires pc.InferRecorded? && FlightInv(s.rt, pc) && (forall id :: id in s.rt.leases ==> SequenceInv(s, id))
    requires n.rt.audit == s.rt.audit && n.responses == s.responses + [Reply(pc.row, pc.actions)]
    requires var lease := s.rt.leases[pc.req.session];
      n.rt.leases == s.rt.leases[pc.req.session := lease.(nextSequence := lease.nextSequence + 1)]
    requires n.rt.session == s.rt.session && n.rt.state == s.rt.state
    requires forall id :: RecordedFor(s, id) ==> id == pc.req.session
    ensures forall id :: id in n.rt.leases ==> SequenceInv(n, id)
  {
    forall other | other in n.rt.leases ensures SequenceInv(n, other) {
      AnswerGrowsOneSession(s, n, pc, other);
    }
  }

  lemma BeginKeepsLogs(s: System, n: System, trial: TrialId, skill: Skill, seed: int, io: BeginIo)
    requires LogInv(s) && n.responses == s.responses && n.rt.leases == s.rt.leases
    requires n.rt.audit == Begin(s.rt.audit, trial, skill, s.rt.generation, seed, io).0
    requires n.rt.session == s.rt.session && n.rt.state == s.rt.state && forall id :: !RecordedFor(s, id)
    ensures LogInv(n)
  {
    BeginKeepsManifests(s.rt.audit, trial, skill, s.rt.generation, seed, io);
    BeginKeepsNoise(s.rt.audit, trial, skill, s.rt.generation, seed, io);
    BeginKeepsRows(s.rt, n.rt);
    hide ManifestInv, NoiseInv, Begin, RowInv, SequenceInv, AnswersInv;
    forall id | id in n.rt.leases ensures SequenceInv(n, id) {
      LeaseHasRows(s.rt, id);
      SequenceKept(s, n, id);
    }
    AnswersKept(s, n);
  }

  lemma BeginKeepsRows(r: Runtime, q: Runtime)
    requires RowInv(r) && q.leases == r.leases && r.audit.manifests.Keys <= q.audit.manifests.Keys
    requires forall t :: t in r.audit.rows ==> t in q.audit.rows && q.audit.rows[t] == r.audit.rows[t]
    requires forall t :: t in q.audit.rows && t !in r.audit.rows ==> q.audit.rows[t] == []
    ensures RowInv(q)
  {
    RowsKept(r, q);
  }

  lemma LeaseHasRows(r: Runtime, id: SessionId)
    requires RowInv(r) && ManifestInv(r.audit) && id in r.leases
    ensures r.leases[id].trial in r.audit.rows
  {
  }

  lemma AnswersKept(s: System, n: System)
    requires AnswersInv(s) && n.responses == s.responses && n.rt.leases == s.rt.leases
    ensures AnswersInv(n)
  {
  }

  lemma NoRowsYet(rows: seq<Row>, id: SessionId)
    requires forall i :: 0 <= i < |rows| ==> rows[i].session != id
    ensures OfSession(rows, id) == []
    decreases |rows|
  {
  }

  /** A new lease of the active trial starts an empty session. */
  lemma NewLeaseSequence(s: System, n: System, made: SessionId, lease: Lease)
    requires LogInv(s) && made !in s.rt.leases && lease.nextSequence == 0
    requires n.rt.audit == s.rt.audit && n.responses == s.responses && n.rt.leases == s.rt.leases[made := lease]
    ensures SequenceInv(n, made)
  {
    NoRowsYet(s.rt.audit.RowsOf(lease.trial), made);
    NoRowsYet(Answered(s.responses), made);
  }

  lemma OpenKeepsLogs(s: System, n: System, made: SessionId, lease: Lease)
    requires LogInv(s) && made !in s.rt.leases && lease.trial in s.rt.audit.manifests
    requires n.rt.audit == s.rt.audit && n.responses == s.responses && n.rt.leases == s.rt.leases[made := lease]
    requires SequenceInv(n, made)
    requires forall id :: id in s.rt.leases && Excused(s, id) ==> Excused(n, id)
    ensures LogInv(n)
  {
    RowsKept(s.rt, n.rt);
    forall id | id in n.rt.leases ensures SequenceInv(n, id) {
      if id != made {
        SequenceKept(s, n, id);
      }
    }
  }

  lemma EndIsUntouched(s: System, e: Event)
    requires SessionInv(s.rt) && Enabled(s, e) && e.EndCall?
    ensures RowsUntouched(s, Apply(s, e))
    ensures Apply(s, e).rt.audit in {s.rt.audit, End(s.rt.audit, e.summaryWritten, e.manifestWritten).0}
  {
    EndingApplies(s, e);
    hide Apply;
  }

  lemma AbortIsUntouched(s: System, e: Event)
    requires LockInv(s) && SessionInv(s.rt) && Enabled(s, e) && e.AbortEnter?
    ensures RowsUntouched(s, Apply(s, e))
    ensures Apply(s, e).rt.audit == Terminate(s.rt.audit, TrialStatus.Aborted, None, e.written).0
  {
    EndingApplies(s, e);
    AbortCalms(s.rt, e.written);
    OwnerCalms(s, Abort(s.rt, e.written).0, e.t);
    hide Apply, Abort, EndTrial, MarkAmbiguous, Close, Terminate, SessionInv, LockInv, Calmed, RowsUntouched;
  }

  lemma AmbiguousIsUntouched(s: System, e: Event)
    requires SessionInv(s.rt) && Enabled(s, e) && e.AmbiguousCall?
    ensures RowsUntouched(s, Apply(s, e))
    ensures Apply(s, e).rt.audit in {s.rt.audit, Terminate(s.rt.audit, Ambiguous, Some(e.sequence), e.written).0}
  {
    EndingApplies(s, e);
    MarkCalms(s.rt, e.id, e.sequence, e.written);
    hide Apply, EndTrial, Abort, MarkAmbiguous, Close, Terminate, SessionInv;
  }

  lemma MarkCalms(r: Runtime, id: SessionId, sequence: nat, written: bool)
    requires SessionInv(r)
    ensures var q := MarkAmbiguous(r, id, sequence, written).0;
      Calmed(r, q) && q.audit in {r.audit, Terminate(r.audit, Ambiguous, Some(sequence), written).0}
  {
  }

  lemma CloseIsUntouched(s: System, e: Event)
    requires LockInv(s) && SessionInv(s.rt) && TrialInv(s.rt) && Enabled(s, e) && e.CloseCall?
    ensures RowsUntouched(s, Apply(s, e))
    ensures Apply(s, e).rt.audit in {s.rt.audit, Terminate(s.rt.audit, TrialStatus.Aborted, None, e.written).0}
  {
    EndingApplies(s, e);
    hide Apply;
    CloseKeepsFields(s.rt, e.written);
  }

  // ----- every event -----

  lemma WorkStaysFine(s: System, e: Event)
    requires Inv(s) && Enabled(s, e)
    ensures ControlInv(Apply(s, e)) && WorkInv(Apply(s, e))
  {
    match e
    case Call(_, _) => CallKeeps(s, e);
    case Acquire(_) => AcquireKeeps(s, e);
    case Busy(_) => BusyKeepsControl(s, e); BusyKeepsWork(s, e);
    case Release(_) => ReleaseKeeps(s, e);
    case FailStep(_) => FailStepKeepsControl(s, e); FailStepKeepsWork(s, e);
    case InferEnter(_, _) => InferEnterKeepsControl(s, e); InferEnterKeepsWork(s, e);
    case InferBackend(_, _) => InferBackendKeeps(s, e);
    case InferRecord(_, _) => InferRecordKeepsControl(s, e); InferRecordKeepsWork(s, e);
    case InferRespond(_) => InferRespondKeepsControl(s, e); InferRespondKeepsWork(s, e);
    case InferLeave(_) => InferLeaveKeeps(s, e);
    case PrepareCall(_, _) => PrepareCallKeepsControl(s, e); PrepareCallKeepsWork(s, e);
    case PrepareDrain(_) => NeverDraining(s, e.t);
    case PrepareDrainTimeout(_) => NeverDraining(s, e.t);
    case PrepareBackend(_, _, _) => PrepareBackendKeeps(s, e);
    case PrepareDone(_) => PrepareDoneKeeps(s, e);
    case BeginEnter(_, _) => BeginEnterKeepsControl(s, e); BeginEnterKeepsWork(s, e);
    case OpenCall(_, _) => OpenCallKeeps(s, e);
    case CloseSessionCall(_) => CloseSessionCallKeeps(s, e);
    case EndCall(_, _) => EndCallKeepsControl(s, e); EndCallKeepsWork(s, e);
    case AbortEnter(_, _) => AbortEnterKeepsControl(s, e); AbortEnterKeepsWork(s, e);
    case AmbiguousCall(_, _, _) => AmbiguousCallKeepsControl(s, e); AmbiguousCallKeepsWork(s, e);
    case CloseCall(_, _) => CloseCallKeepsControl(s, e); CloseCallKeepsWork(s, e);
    case CloseBackend(_) => CloseBackendKeeps(s, e);
  }

  /** The events that leave the store and the responses alone. */
  predicate Quiet(e: Event) {
    !e.InferRecord? && !e.InferRespond? && !e.BeginEnter? && !e.OpenCall? && !e.EndCall? && !e.AbortEnter?
    && !e.AmbiguousCall? && !e.CloseCall?
  }

  lemma QuietIsUntouched(s: System, e: Event)
    requires ControlInv(s) && Enabled(s, e) && Quiet(e)
    ensures RowsUntouched(s, Apply(s, e)) && Apply(s, e).rt.audit == s.rt.audit
  {
    match e
    case Call(_, _) => CallIsQuiet(s, e);
    case Acquire(_) => AcquireIsQuiet(s, e);
    case Busy(_) => BusyIsQuiet(s, e);
    case Release(_) => ReleaseIsQuiet(s, e);
    case FailStep(_) => FailStepIsQuiet(s, e);
    case InferEnter(_, _) => InferEnterIsQuiet(s, e);
    case InferBackend(_, _) => InferBackendIsQuiet(s, e);
    case InferLeave(_) => InferLeaveIsQuiet(s, e);
    case PrepareCall(_, _) => PrepareCallIsQuiet(s, e);
    case PrepareDrain(_) => NeverDraining(s, e.t);
    case PrepareDrainTimeout(_) => NeverDraining(s, e.t);
    case PrepareBackend(_, _, _) => PrepareBackendIsQuiet(s, e);
    case PrepareDone(_) => PrepareDoneIsQuiet(s, e);
    case CloseSessionCall(_) => CloseSessionCallIsQuiet(s, e);
    case CloseBackend(_) => CloseBackendIsQuiet(s, e);
  }

  lemma RecordStep(s: System, e: Event)
    requires Inv(s) && Enabled(s, e) && e.InferRecord?
    ensures LogInv(Apply(s, e))
  {
    InferApplies(s, e);
    hide Apply;
    InferRecordKeepsLogs(s, Apply(s, e), s.threads[e.t], e.disk);
  }

  lemma RespondEffect(s: System, e: Event)
    requires LockInv(s) && SessionInv(s.rt) && Enabled(s, e) && e.InferRespond?
    ensures var n := Apply(s, e);
      var pc := s.threads[e.t];
      n.rt.audit == s.rt.audit &&
      if n.responses == s.responses then RowsUntouched(s, n)
      else
        && pc.req.session in s.rt.leases
        && n.responses == s.responses + [Reply(pc.row, pc.actions)]
        && n.rt.session == s.rt.session && n.rt.state == s.rt.state
        && var lease := s.rt.leases[pc.req.session];
           n.rt.leases == s.rt.leases[pc.req.session := lease.(nextSequence := lease.nextSequence + 1)]
  {
    InferApplies(s, e);
    hide Apply;
  }

  lemma RespondKeepsAnswers(s: System, n: System, pc: Pc)
    requires AnswersInv(s) && pc.InferRecorded? && FlightInv(s.rt, pc)
    requires n.responses == s.responses + [Reply(pc.row, pc.actions)] && n.rt.leases.Keys == s.rt.leases.Keys
    ensures AnswersInv(n)
  {
  }

  lemma BeginEffect(s: System, e: Event)
    requires LockInv(s) && Enabled(s, e) && e.BeginEnter?
    ensures var n := Apply(s, e);
      var pc := s.threads[e.t];
      && RowsUntouchedBut(s, n)
      && (n.rt.audit == s.rt.audit
          || (e.io.ResetDone? && s.rt.activeSkill.Some? && s.rt.trial.None?
              && n.rt.audit ==
                 Begin(s.rt.audit, pc.trial, s.rt.activeSkill.value, s.rt.generation, pc.seed, e.io.io).0))
  {
    SessionApplies(s, e);
    hide Apply;
  }

  /** Only the store may differ, and no row waits for its answer. */
  ghost predicate RowsUntouchedBut(s: System, n: System) {
    && n.responses == s.responses && n.rt.leases == s.rt.leases
    && n.rt.session == s.rt.session && n.rt.state == s.rt.state && n.rt.generation == s.rt.generation
    && (forall id :: !RecordedFor(s, id))
  }

  lemma BeginStep(s: System, n: System, trial: TrialId, seed: int, io: BeginIos)
    requires LogInv(s) && RowsUntouchedBut(s, n)
    requires n.rt.audit == s.rt.audit
      || (io.ResetDone? && s.rt.activeSkill.Some?
          && n.rt.audit == Begin(s.rt.audit, trial, s.rt.activeSkill.value, s.rt.generation, seed, io.io).0)
    ensures LogInv(n)
  {
    if n.rt.audit == s.rt.audit {
      UntouchedKeepsLogs(s, n);
    } else {
      BeginKeepsLogs(s, n, trial, s.rt.activeSkill.value, seed, io.io);
    }
  }

  lemma OpenEffect(s: System, e: Event)
    requires SessionInv(s.rt) && TrialInv(s.rt) && ManifestInv(s.rt.audit) && Enabled(s, e) && e.OpenCall?
    ensures var n := Apply(s, e);
      n == s ||
      (e.id in n.rt.leases
       && var lease := n.rt.leases[e.id];
          && lease.nextSequence == 0 && lease.trial in s.rt.audit.manifests
          && n.rt.audit == s.rt.audit && n.responses == s.responses && n.rt.leases == s.rt.leases[e.id := lease]
          && (forall id :: id in s.rt.leases && Excused(s, id) ==> Excused(n, id)))
  {
    SessionApplies(s, e);
    hide Apply;
  }

  lemma OpenStep(s: System, n: System, made: SessionId, lease: Lease)
    requires LogInv(s) && made !in s.rt.leases && lease.trial in s.rt.audit.manifests && lease.nextSequence == 0
    requires n.rt.audit == s.rt.audit && n.responses == s.responses && n.rt.leases == s.rt.leases[made := lease]
    requires forall id :: id in s.rt.leases && Excused(s, id) ==> Excused(n, id)
    ensures LogInv(n)
  {
    NewLeaseSequence(s, n, made, lease);
    OpenKeepsLogs(s, n, made, lease);
  }

  lemma RespondAnswered(s: System, n: System, pc: Pc)
    requires RowInv(s.rt) && AnswersInv(s) && pc.InferRecorded? && FlightInv(s.rt, pc)
    requires n.rt.audit == s.rt.audit && n.responses == s.responses + [Reply(pc.row, pc.actions)]
    requires var lease := s.rt.leases[pc.req.session];
      n.rt.leases == s.rt.leases[pc.req.session := lease.(nextSequence := lease.nextSequence + 1)]
    requires n.rt.session == s.rt.session && n.rt.state == s.rt.state
    requires forall id :: RecordedFor(s, id) ==> id == pc.req.session
    ensures RowInv(n.rt) && AnswersInv(n)
  {
    RowsIgnoreSequence(s.rt, n.rt);
    RespondKeepsAnswers(s, n, pc);
  }

  lemma RespondLogs(s: System, e: Event)
    requires Inv(s) && Enabled(s, e) && e.InferRespond?
    ensures LogInv(Apply(s, e))
  {
    RespondEffect(s, e);
    var n := Apply(s, e);
    if n.responses == s.responses {
      UntouchedKeepsLogs(s, n);
    } else {
      var pc := s.threads[e.t];
      RespondAnswered(s, n, pc);
      InferRespondKeepsSequences(s, n, pc);
    }
  }

  lemma OpenLogs(s: System, e: Event)
    requires Inv(s) && Enabled(s, e) && e.OpenCall?
    ensures LogInv(Apply(s, e))
  {
    OpenEffect(s, e);
    if Apply(s, e) != s {
      OpenStep(s, Apply(s, e), e.id, Apply(s, e).rt.leases[e.id]);
    }
  }

  lemma BeginLogs(s: System, e: Event)
    requires Inv(s) && Enabled(s, e) && e.BeginEnter?
    ensures LogInv(Apply(s, e))
  {
    BeginEffect(s, e);
    BeginStep(s, Apply(s, e), s.threads[e.t].trial, s.threads[e.t].seed, e.io);
  }

  lemma EndLogs(s: System, e: Event)
    requires Inv(s) && Enabled(s, e) && e.EndCall?
    ensures LogInv(Apply(s, e))
  {
    EndIsUntouched(s, e);
    EndKeepsStore(s.rt.audit, e.summaryWritten, e.manifestWritten);
    UntouchedKeepsLogs(s, Apply(s, e));
  }

  lemma AbortLogs(s: System, e: Event)
    requires Inv(s) && Enabled(s, e) && e.AbortEnter?
    ensures LogInv(Apply(s, e))
  {
    AbortIsUntouched(s, e);
    TerminateKeepsStore(s.rt.audit, TrialStatus.Aborted, None, e.written);
    UntouchedKeepsLogs(s, Apply(s, e));
  }

  lemma AmbiguousLogs(s: System, e: Event)
    requires Inv(s) && Enabled(s, e) && e.AmbiguousCall?
    ensures LogInv(Apply(s, e))
  {
    AmbiguousIsUntouched(s, e);
    TerminateKeepsStore(s.rt.audit, Ambiguous, Some(e.sequence), e.written);
    UntouchedKeepsLogs(s, Apply(s, e));
  }

  lemma CloseLogs(s: System, e: Event)
    requires Inv(s) && Enabled(s, e) && e.CloseCall?
    ensures LogInv(Apply(s, e))
  {
    CloseIsUntouched(s, e);
    TerminateKeepsStore(s.rt.audit, TrialStatus.Aborted, None, e.written);
    UntouchedKeepsLogs(s, Apply(s, e));
  }

  lemma QuietLogs(s: System, e: Event)
    requires Inv(s) && Enabled(s, e) && Quiet(e)
    ensures LogInv(Apply(s, e))
  {
    QuietIsUntouched(s, e);
    UntouchedKeepsLogs(s, Apply(s, e));
  }

  lemma EndingStepLogs(s: System, e: Event)
    requires Inv(s) && Enabled(s, e) && (e.EndCall? || e.AbortEnter? || e.AmbiguousCall? || e.CloseCall?)
    ensures LogInv(Apply(s, e))
  {
    hide Apply, Enabled, Inv, LogInv;
    match e
    case EndCall(_, _) => EndLogs(s, e);
    case AbortEnter(_, _) => AbortLogs(s, e);
    case AmbiguousCall(_, _, _) => AmbiguousLogs(s, e);
    case CloseCall(_, _) => CloseLogs(s, e);
  }

  lemma LogsStayFine(s: System, e: Event)
    requires Inv(s) && Enabled(s, e)
    ensures LogInv(Apply(s, e))
  {
    hide Apply, Enabled, Inv, LogInv;
    if e.InferRecord? {
      RecordStep(s, e);
    } else if e.InferRespond? {
      RespondLogs(s, e);
    } else if e.BeginEnter? {
      BeginLogs(s, e);
    } else if e.OpenCall? {
      OpenLogs(s, e);
    } else if e.EndCall? || e.AbortEnter? || e.AmbiguousCall? || e.CloseCall? {
      EndingStepLogs(s, e);
    } else {
      QuietLogs(s, e);
    }
  }

  /** Steps of preparations lead into LOADING only at their start, and keep the preparation until they leave LOADING. */
  lemma PrepareStepLoading(s: System, e: Event, t: ThreadId)
    requires PrepareInv(s) && Enabled(s, e) && PrepareStep(e) && Apply(s, e).rt.state == Loading
    ensures s.rt.state == Loading && PreparingAt(s, t) ==> PreparingAt(Apply(s, e), t)
    ensures s.rt.state != Loading ==> PreparingAt(Apply(s, e), e.t)
  {
    PrepareApplies(s, e);
    hide Apply;
  }

  lemma LockStepLoading(s: System, e: Event, t: ThreadId)
    requires PrepareInv(s) && Enabled(s, e) && LockStep(e) && Apply(s, e).rt.state == Loading
    ensures s.rt.state == Loading && (PreparingAt(s, t) ==> PreparingAt(Apply(s, e), t))
  {
    LockApplies(s, e);
    hide Apply;
  }

  lemma OtherStepLoading(s: System, e: Event, t: ThreadId)
    requires Enabled(s, e) && !LockStep(e) && !PrepareStep(e) && Apply(s, e).rt.state == Loading
    ensures s.rt.state == Loading && (PreparingAt(s, t) ==> PreparingAt(Apply(s, e), t))
  {
    if InferStep(e) {
      InferApplies(s, e);
    } else if SessionStep(e) {
      SessionApplies(s, e);
    } else {
      EndingApplies(s, e);
    }
    hide Apply;
  }

  lemma LoadingStep(s: System, e: Event, t: ThreadId)
    requires PrepareInv(s) && Enabled(s, e) && Apply(s, e).rt.state == Loading
    ensures s.rt.state == Loading && PreparingAt(s, t) ==> PreparingAt(Apply(s, e), t)
    ensures s.rt.state != Loading ==> PreparingAt(Apply(s, e), e.t)
  {
    hide Apply, Enabled, PrepareInv, PreparingAt;
    if PrepareStep(e) {
      PrepareStepLoading(s, e, t);
    } else if LockStep(e) {
      LockStepLoading(s, e, t);
    } else {
      OtherStepLoading(s, e, t);
    }
  }

  lemma LoadingKept(s: System, e: Event)
    requires PrepareInv(s) && LoadingInv(s) && Enabled(s, e)
    ensures LoadingInv(Apply(s, e))
  {
    hide Apply, Enabled, PrepareInv;
    if Apply(s, e).rt.state == Loading {
      if s.rt.state == Loading {
        var t :| PreparingAt(s, t);
        LoadingStep(s, e, t);
      } else {
        LoadingStep(s, e, 0);
      }
    }
  }

  lemma InvKept(s: System, e: Event)
    requires Inv(s) && Enabled(s, e)
    ensures Inv(Apply(s, e))
  {
    WorkStaysFine(s, e);
    LoadingKept(s, e);
    LogsStayFine(s, e);
  }

  lemma StartInv(disk: set<TrialId>, backend: Backend)
    ensures Inv(Start(disk, backend))
  {
  }

  /** Every state of every run satisfies the invariant. */
  lemma RunInv(s: System, events: seq<Event>)
    requires Inv(s) && Run(s, events).Some?
    ensures Inv(Run(s, events).value)
    decreases |events|
  {
    if events != [] {
      var last := |events| - 1;
      RunInv(s, events[..last]);
      InvKept(Run(s, events[..last]).value, events[last]);
    }
  }
}
